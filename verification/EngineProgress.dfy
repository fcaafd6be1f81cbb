// Calls in progress always can go on, and end.
module EngineProgress {
  import opened Slots
  import opened Caches
  import opened Wildcards
  import opened WTables
  import opened Engine
  import opened EngineInvariants
  import opened EngineRuns

  // The calls a thread makes of its own accord, as against the steps that carry them out.
  predicate Starts(a: Action) {
    a.Call? || a.StartEnable? || a.StartDisable? || a.StartInit?
  }

  function Left(pc: Pc): nat {
    match pc
    case Idle => 0
    case FailWant(_) => 11
    case FailFinals(_) => 10
    case FailCache(_) => 9
    case FailWalk(_) => 8
    case FailFill(_, _) => 7
    case FailFound(_, _) => 6
    case FailCheck(_, _) => 5
    case FailDecide(_, _) => 4
    case FailFire(_, _) => 3
    case FailPass(_, _) => 3
    case FailOut(_, _, _, _) => 2
    case FailDone(_) => 1
    case EnableCreate(_, _, _, _) => 8
    case EnableReady(_) => 7
    case WriteWant(_) => 6
    case WriteIn(_) => 5
    case SetGrown(_) => 4
    case SetCleared(_) => 3
    case DelFreed => 4
    case DelShrunk => 3
    case WriteOut => 2
    case WriteDone => 1
  }

  function Work(th: Thread): nat {
    Left(th.pc) + th.nested
  }

  // ---- no deadlock ----

  lemma {:induction false} UnusedPid(used: set<Pid>) returns (p: Pid)
    ensures p !in used
    ensures forall q :: q in used ==> q < p
  {
    if used == {} {
      p := 0;
    } else {
      var q :| q in used;
      var r := UnusedPid(used - {q});
      p := if r > q then r else q + 1;
      assert forall x :: x in used ==> x == q || x in used - {q};
    }
  }

  // A step that needs no new call. Readers may be made to wait for a waiting writer.
  ghost predicate CanMove(s: State, t: Tid) {
    exists a :: Enabled(s, t, a) && Allowed(s, a)
  }

  ghost predicate Allowed(s: State, a: Action) {
    !Starts(a) && (a.TakeRead? ==> forall u :: u in s.threads ==> !s.threads[u].pc.WriteWant?)
  }

  lemma MoveBy(s: State, t: Tid, a: Action)
    requires Enabled(s, t, a) && Allowed(s, a)
    ensures CanMove(s, t)
  {
  }

  lemma WriterMoves(s: State, t: Tid)
    requires t in s.threads && ThreadsOk(s) && s.table.cache != [] && HoldsWrite(s.threads[t].pc)
    requires s.threads[t].nested == 0
    ensures CanMove(s, t)
  {
    hide ThreadsOk, Resizes;
    if s.threads[t].pc.WriteOut? {
      MoveBy(s, t, ReleaseWrite);
    } else {
      if Pending(s.threads[t].pc).Some? {
        PendingIsOk(s, t, Pending(s.threads[t].pc).value);
      }
      assert CacheMove(s, s.threads[t].pc, s.table.cache);
      MoveBy(s, t, WriteStep(s.table.cache));
    }
  }

  // Only a ONETIME point's mutex can hold a reader up.
  predicate HeldUp(s: State, t: Tid)
    requires t in s.threads
  {
    var pc := s.threads[t].pc;
    pc.FailFound? && pc.found.Some? && pc.found.value in s.points
    && s.points[pc.found.value].onetime && s.points[pc.found.value].owner.Some?
  }

  lemma SearchMoves(s: State, t: Tid)
    requires t in s.threads && s.threads[t].nested == 0
    requires var pc := s.threads[t].pc; pc.FailFinals? || pc.FailCache? || pc.FailWalk? || pc.FailFill? || pc.FailOut?
    ensures CanMove(s, t)
  {
    var pc := s.threads[t].pc;
    MoveBy(s, t, if pc.FailFinals? then ProbeFinals else if pc.FailCache? then ProbeCache else if pc.FailWalk? then Walk
                 else if pc.FailFill? then Fill else ReleaseRead);
  }

  lemma DecisionMoves(s: State, t: Tid, p: Pid)
    requires t in s.threads && ThreadsOk(s) && s.threads[t].nested == 0 && AtMutex(s.threads[t].pc, p)
    ensures CanMove(s, t)
  {
    hide ThreadsOk, Lookup, RecordOk, OutcomeOk, PendingOk, CanMove;
    EachPcOk(s, t);
    var pc := s.threads[t].pc;
    assert p in s.points;
    MoveBy(s, t, if pc.FailCheck? then Check else if pc.FailDecide? then Decide(true, s.points[p].failnum)
                 else if pc.FailFire? then Fire else Pass);
  }

  lemma ReaderMoves(s: State, t: Tid)
    requires t in s.threads && ThreadsOk(s) && TableOk(s.table, s.points, Phase(s))
    requires HoldsRead(s.threads[t].pc) && s.threads[t].nested == 0 && !HeldUp(s, t)
    ensures CanMove(s, t)
  {
    hide ThreadsOk, TableOk, CanMove, Lookup, RecordOk, OutcomeOk, PendingOk;
    var pc := s.threads[t].pc;
    if pc.FailFound? {
      EachPcOk(s, t);
      if pc.found.Some? {
        AnswerIsLive(s, t, pc.name);
      }
      MoveBy(s, t, Resolve);
    } else if pc.FailCheck? || pc.FailDecide? || pc.FailFire? || pc.FailPass? {
      DecisionMoves(s, t, pc.p);
    } else {
      SearchMoves(s, t);
    }
  }

  lemma OutsideMoves(s: State, t: Tid)
    requires t in s.threads && CountsOk(s) && s.threads[t].nested == 0 && s.writer.None?
    requires var pc := s.threads[t].pc; !pc.Idle? && !HoldsRead(pc) && !HoldsWrite(pc)
    requires s.threads[t].pc.WriteWant? ==> s.readers == {}
    requires s.threads[t].pc.FailWant? ==> forall u :: u in s.threads ==> !s.threads[u].pc.WriteWant?
    ensures CanMove(s, t)
  {
    hide CanMove;
    var pc := s.threads[t].pc;
    assert CountOk(s.threads[t]);
    var p := UnusedPid(s.points.Keys);
    MoveBy(s, t, if pc.FailWant? then TakeRead else if pc.WriteWant? then TakeWrite else if pc.FailDone? then Return
                 else if pc.EnableCreate? then Create(p) else if pc.EnableReady? then Insert else Finish);
  }

  // Whoever holds the mutex is past the lock and can decide.
  lemma OwnerMoves(s: State, r: Tid)
    requires r in s.threads && HeldUp(s, r) && MutexOk(s.points, s.threads) && ThreadsOk(s)
    requires forall u :: u in s.threads ==> s.threads[u].nested == 0
    ensures exists u :: u in s.threads && CanMove(s, u)
  {
    hide ThreadsOk, CanMove, AtMutex;
    var p := s.threads[r].pc.found.value;
    DecisionMoves(s, s.points[p].owner.value, p);
  }

  // No reachable state is a deadlock: while a call is in progress anywhere, some thread can move on,
  // even if the lock prefers waiting writers to new readers.
  lemma NoDeadlock(hash: HashFn, s: State, t: Tid)
    requires Reachable(hash, s) && t in s.threads && !s.threads[t].pc.Idle?
    ensures exists u :: u in s.threads && CanMove(s, u)
  {
    hide Reachable, Inv, CountsOk, TableOk, CacheOk, ThreadsOk, PendingDistinct, CallsOk, WinnersOk, FlagsOk, CanMove,
      HeldUp, HoldsRead, HoldsWrite;
    InvHolds(hash, s);
    Parts(s);
    CacheThere(s);
    if u :| u in s.threads && s.threads[u].nested > 0 {
      MoveBy(s, u, Unnest);
    } else if s.writer.Some? {
      WriterMoves(s, s.writer.value);
    } else if r :| r in s.readers {
      if HeldUp(s, r) {
        OwnerMoves(s, r);
      } else {
        ReaderMoves(s, r);
      }
    } else if w :| w in s.threads && s.threads[w].pc.WriteWant? {
      OutsideMoves(s, w);
    } else {
      assert t !in s.readers;
      OutsideMoves(s, t);
    }
  }

  // ---- without new calls, every run ends ----

  ghost function TotalWork(threads: map<Tid, Thread>): nat {
    SumWork(threads, threads.Keys)
  }

  ghost function SumWork(threads: map<Tid, Thread>, ts: set<Tid>): nat
    requires ts <= threads.Keys
  {
    if ts == {} then 0
    else
      var t :| t in ts;
      Work(threads[t]) + SumWork(threads, ts - {t})
  }

  lemma {:induction false} SumWithout(threads: map<Tid, Thread>, ts: set<Tid>, t: Tid)
    requires ts <= threads.Keys && t in ts
    ensures SumWork(threads, ts) == Work(threads[t]) + SumWork(threads, ts - {t})
  {
    hide Work;
    var u :| u in ts && SumWork(threads, ts) == Work(threads[u]) + SumWork(threads, ts - {u});
    if u != t {
      SumWithout(threads, ts - {u}, t);
      SumWithout(threads, ts - {t}, u);
      assert ts - {u} - {t} == ts - {t} - {u};
    }
  }

  lemma {:induction false} SumElsewhere(threads: map<Tid, Thread>, t: Tid, th: Thread, ts: set<Tid>)
    requires ts <= threads.Keys && t !in ts
    ensures ts <= threads[t := th].Keys
    ensures SumWork(threads[t := th], ts) == SumWork(threads, ts)
  {
    hide Work;
    if ts != {} {
      var u :| u in ts;
      SumWithout(threads, ts, u);
      SumWithout(threads[t := th], ts, u);
      SumElsewhere(threads, t, th, ts - {u});
    }
  }

  lemma ReaderWork(hash: HashFn, s: State, t: Tid, a: Action)
    requires Enabled(s, t, a) && s.table.cache != []
    requires a.ProbeFinals? || a.ProbeCache? || a.Walk? || a.Fill? || a.Resolve? || a.Check?
    ensures OneMoves(s, Apply(hash, s, t, a), t)
    ensures Work(Apply(hash, s, t, a).threads[t]) < Work(s.threads[t])
  {
    hide Hit, Store, FirstMatch, Enabled, Apply, CacheMove;
    Performs(hash, s, t, a);

  }

  lemma DecisionWork(hash: HashFn, s: State, t: Tid, a: Action)
    requires Enabled(s, t, a) && s.table.cache != []
    requires a.Decide? || a.Fire? || a.Pass? || a.ReleaseRead? || a.Return? || a.TakeRead? || a.Unnest?
    ensures OneMoves(s, Apply(hash, s, t, a), t)
    ensures Work(Apply(hash, s, t, a).threads[t]) < Work(s.threads[t])
  {
    hide CacheMove, DoWriteStep, DoCall, DoCreate, DoResolve, DoCheck, DoFill;
  }

  lemma WriterWork(hash: HashFn, s: State, t: Tid, a: Action)
    requires Enabled(s, t, a) && s.table.cache != []
    requires a.Create? || a.Insert? || a.TakeWrite? || a.ReleaseWrite? || a.Finish?
    ensures OneMoves(s, Apply(hash, s, t, a), t)
    ensures Work(Apply(hash, s, t, a).threads[t]) < Work(s.threads[t])
  {
    hide CacheMove, DoWriteStep, NewPoint;
  }

  lemma SetWork(s: State, t: Tid, p: Pid, newCache: seq<Slot<Option<Pid>>>)
    requires t in s.threads && s.threads[t].pc == WriteIn(SetOp(p)) && p in s.points
    ensures OneMoves(s, DoSet(s, t, p, newCache), t) && Work(DoSet(s, t, p, newCache).threads[t]) < Work(s.threads[t])
  {
    hide Grown, IsWildcard, Destroy;
  }

  lemma PutWork(s: State, t: Tid, p: Pid)
    requires t in s.threads && s.threads[t].pc == SetCleared(p) && p in s.points
    ensures OneMoves(s, DoPut(s, t, p), t) && Work(DoPut(s, t, p).threads[t]) < Work(s.threads[t])
  {
    hide Put, IndexOf, Destroy;
  }

  lemma DelWork(s: State, t: Tid, name: string)
    requires t in s.threads && s.threads[t].pc == WriteIn(DelOp(name))
    ensures OneMoves(s, DoDel(s, t, name), t) && Work(DoDel(s, t, name).threads[t]) < Work(s.threads[t])
  {
    hide IndexOf, IsWildcard, Destroy;
  }

  lemma WriteStepWork(hash: HashFn, s: State, t: Tid, a: Action)
    requires Enabled(s, t, a) && s.table.cache != [] && a.WriteStep?
    ensures OneMoves(s, Apply(hash, s, t, a), t)
    ensures Work(Apply(hash, s, t, a).threads[t]) < Work(s.threads[t])
  {
    hide Shrunk, Invalidated, DoSet, DoPut, DoDel, Enabled, Apply, CacheMove;
    Performs(hash, s, t, a);
    match s.threads[t].pc {
      case WriteIn(SetOp(p)) => SetWork(s, t, p, a.newCache);
      case WriteIn(DelOp(name)) => DelWork(s, t, name);
      case SetCleared(p) => PutWork(s, t, p);
      case _ =>
    }
  }

  lemma StepWork(hash: HashFn, s: State, t: Tid, a: Action)
    requires Enabled(s, t, a) && s.table.cache != [] && !Starts(a)
    ensures OneMoves(s, Apply(hash, s, t, a), t)
    ensures TotalWork(Apply(hash, s, t, a).threads) < TotalWork(s.threads)
  {
    hide Enabled, Apply, Work;
    if a.WriteStep? {
      WriteStepWork(hash, s, t, a);
    } else if a.Create? || a.Insert? || a.TakeWrite? || a.ReleaseWrite? || a.Finish? {
      WriterWork(hash, s, t, a);
    } else if a.Decide? || a.Fire? || a.Pass? || a.ReleaseRead? || a.Return? || a.TakeRead? || a.Unnest? {
      DecisionWork(hash, s, t, a);
    } else {
      ReaderWork(hash, s, t, a);
    }
    var s' := Apply(hash, s, t, a);
    SumWithout(s.threads, s.threads.Keys, t);
    SumWithout(s'.threads, s'.threads.Keys, t);
    SumElsewhere(s.threads, t, s'.threads[t], s.threads.Keys - {t});
    assert s'.threads.Keys == s.threads.Keys;
  }

  // From any state, the calls already in progress need no more steps than their remaining work, in
  // whatever order the threads run: with NoDeadlock, they all complete.
  lemma {:induction false} CallsComplete(hash: HashFn, states: seq<State>, events: seq<Event>)
    requires Steps(hash, states, events) && forall i :: 0 <= i < |events| ==> !Starts(events[i].a)
    ensures |events| + TotalWork(states[|events|].threads) <= TotalWork(states[0].threads)
  {
    hide Enabled, Apply, TotalWork, Starts;
    if events != [] {
      var n := |events| - 1;
      CallsComplete(hash, states[..n + 1], events[..n]);
      assert Next(hash, states[n], events[n], states[n + 1]);
      StepWork(hash, states[n], events[n].t, events[n].a);
    }
  }
}
