// Real time: what a call must have seen, and what an exclusive section has done.
module EngineOrder {
  import opened Slots
  import opened Caches
  import opened Wildcards
  import opened WTables
  import opened Engine
  import opened EngineInvariants
  import opened EngineRuns
  import HashRuns

  // ---- one step ----

  ghost predicate KeepsNames(points: map<Pid, Point>, points': map<Pid, Point>) {
    forall p :: p in points ==> p in points' && points'[p].name == points[p].name
  }

  // What every step does to the history: the sets and deletes only grow, in exclusive sections; a record
  // is made of the table as it is, and logged as it was made.
  ghost predicate HistoryFollows(s: State, s': State, t: Tid)
    requires t in s.threads && t in s'.threads
  {
    var pc, pc' := s.threads[t].pc, s'.threads[t].pc;
    && s.table.ops <= s'.table.ops && (!HoldsWrite(pc) ==> s'.table.ops == s.table.ops)
    && (s.table.inited ==> s'.table.inited)
    && (pc'.FailDone? ==> pc' == pc || pc'.record.table == s.table)
    && (s'.log == s.log || (pc.FailDone? && s'.log == s.log + [pc.record]))
    && KeepsNames(s.points, s'.points)
  }

  lemma DecisionHistory(hash: HashFn, s: State, t: Tid, a: Action)
    requires Enabled(s, t, a) && s.table.cache != [] && AfterLookup(a)
    ensures var s' := Apply(hash, s, t, a); OneMoves(s, s', t) && HistoryFollows(s, s', t)
  {
    hide DoWriteStep, DoCreate, DoCall, DoUnnest, DoProbeFinals, DoProbeCache, DoWalk, DoFill, Enabled, Apply,
      CacheMove;
    Performs(hash, s, t, a);
  }

  lemma QuietHistory(hash: HashFn, s: State, t: Tid, a: Action)
    requires Enabled(s, t, a) && s.table.cache != [] && !a.WriteStep? && !AfterLookup(a)
    ensures var s' := Apply(hash, s, t, a); OneMoves(s, s', t) && HistoryFollows(s, s', t)
  {
    hide Hit, Store, FirstMatch, CacheMove, DoWriteStep, DoResolve, DoCheck, DoDecide, DoFire, DoPass, DoReleaseRead,
      DoReturn, NewPoint;
  }

  lemma SetHistory(s: State, t: Tid, p: Pid, newCache: seq<Slot<Option<Pid>>>)
    requires t in s.threads && s.threads[t].pc == WriteIn(SetOp(p)) && p in s.points
    ensures var s' := DoSet(s, t, p, newCache); OneMoves(s, s', t) && HistoryFollows(s, s', t)
  {
    hide Grown, IsWildcard;
  }

  lemma PutHistory(s: State, t: Tid, p: Pid)
    requires t in s.threads && s.threads[t].pc == SetCleared(p) && p in s.points
    ensures var s' := DoPut(s, t, p); OneMoves(s, s', t) && HistoryFollows(s, s', t)
  {
    hide Put, IndexOf;
  }

  lemma DelHistory(s: State, t: Tid, name: string)
    requires t in s.threads && s.threads[t].pc == WriteIn(DelOp(name))
    ensures var s' := DoDel(s, t, name); OneMoves(s, s', t) && HistoryFollows(s, s', t)
  {
    hide IndexOf, IsWildcard;
  }

  lemma WriteHistory(hash: HashFn, s: State, t: Tid, a: Action)
    requires Enabled(s, t, a) && s.table.cache != [] && a.WriteStep?
    ensures var s' := Apply(hash, s, t, a); OneMoves(s, s', t) && HistoryFollows(s, s', t)
  {
    hide Shrunk, Invalidated, DoSet, DoPut, DoDel, Enabled, Apply, CacheMove;
    Performs(hash, s, t, a);
    match s.threads[t].pc {
      case WriteIn(SetOp(p)) => SetHistory(s, t, p, a.newCache);
      case WriteIn(DelOp(name)) => DelHistory(s, t, name);
      case SetCleared(p) => PutHistory(s, t, p);
      case _ =>
    }
  }

  lemma StepHistory(hash: HashFn, s: State, t: Tid, a: Action)
    requires Enabled(s, t, a) && s.table.cache != []
    ensures var s' := Apply(hash, s, t, a); OneMoves(s, s', t) && HistoryFollows(s, s', t)
  {
    hide Enabled, Apply, OneMoves, HistoryFollows;
    if a.WriteStep? {
      WriteHistory(hash, s, t, a);
    } else if AfterLookup(a) {
      DecisionHistory(hash, s, t, a);
    } else {
      QuietHistory(hash, s, t, a);
    }
  }

  // ---- parts of a run ----

  lemma {:induction false} OpsGrow(hash: HashFn, states: seq<State>, events: seq<Event>, n: nat, m: nat)
    requires Steps(hash, states, events) && n <= m <= |events|
    ensures states[n].table.ops <= states[m].table.ops
    decreases m
  {
    hide Enabled, Apply, HoldsWrite, KeepsNames;
    if n < m {
      OpsGrow(hash, states, events, n, m - 1);
      assert Next(hash, states[m - 1], events[m - 1], states[m]);
      StepHistory(hash, states[m - 1], events[m - 1].t, events[m - 1].a);
    }
  }

  // ---- calls see what came before them ----

  // Every record, made or being returned, of a call numbered `from` or later has at least these sets and
  // deletes behind it.
  ghost predicate Since(ops: seq<HashRuns.Op<Pid>>, from: nat, s: State) {
    && ops <= s.table.ops
    && (forall i :: 0 <= i < |s.log| && s.log[i].id >= from ==> ops <= s.log[i].table.ops)
    && (forall t :: t in s.threads && s.threads[t].pc.FailDone? && s.threads[t].pc.record.id >= from ==>
                      ops <= s.threads[t].pc.record.table.ops)
  }

  lemma SinceNow(s: State)
    requires Inv(s)
    ensures Since(s.table.ops, |s.calls|, s)
  {
    hide Inv, RecordOk, PcOk, LocksOk, CountsOk, TableOk, CacheOk, ThreadsOk, PendingDistinct, MutexOk, WinnersOk,
      Placed, CountOk;
    Parts(s);
    assert forall i :: 0 <= i < |s.log| ==> LoggedOk(s, s.log[i]);
    forall t | t in s.threads && s.threads[t].pc.FailDone? ensures s.threads[t].pc.record.id < |s.calls| {
      DoneIsOwn(s, t);
      assert CallOk(s.calls, s.threads[t]) && InFail(s.threads[t].pc);
    }
  }

  lemma SinceNext(ops: seq<HashRuns.Op<Pid>>, from: nat, s: State, s': State, t: Tid)
    requires Since(ops, from, s) && OneMoves(s, s', t) && HistoryFollows(s, s', t)
    ensures Since(ops, from, s')
  {
    hide HoldsWrite, KeepsNames;
  }

  lemma {:induction false} SinceThen(hash: HashFn, states: seq<State>, events: seq<Event>, n: nat, m: nat)
    requires Steps(hash, states, events) && Initial(states[0]) && n <= m <= |events|
    ensures Since(states[n].table.ops, |states[n].calls|, states[m])
    decreases m
  {
    hide Inv, Initial, Enabled, Apply, Since, HistoryFollows, OneMoves;
    if n == m {
      PartOfRun(hash, states, events, n);
      SinceNow(states[n]);
    } else {
      SinceThen(hash, states, events, n, m - 1);
      assert Next(hash, states[m - 1], events[m - 1], states[m]);
      StepHistory(hash, states[m - 1], events[m - 1].t, events[m - 1].a);
      SinceNext(states[n].table.ops, |states[n].calls|, states[m - 1], states[m], events[m - 1].t);
    }
  }

  // Real-time order: a call made in state `n` or later, so numbered from |states[n].calls| on, is answered
  // after every set and delete that took effect before it was made, and before any that takes effect after
  // it is on record.
  lemma CallsInRealTime(hash: HashFn, states: seq<State>, events: seq<Event>, n: nat, m: nat, i: nat)
    requires Steps(hash, states, events) && Initial(states[0]) && n <= m <= |events|
    requires i < |states[m].log| && states[m].log[i].id >= |states[n].calls|
    ensures states[n].table.ops <= states[m].log[i].table.ops <= states[m].table.ops
  {
    hide Inv, Initial, Enabled, Apply, RecordOk;
    SinceThen(hash, states, events, n, m);
    PartOfRun(hash, states, events, m);
    LogPart(states[m], i);
  }

  // The number a call made in state `n` gets.
  lemma CallNumber(hash: HashFn, states: seq<State>, events: seq<Event>, n: nat)
    requires Steps(hash, states, events) && n < |events| && events[n].a.Call? && events[n].t in states[n].threads
    requires states[n].threads[events[n].t].rec == 0
    ensures events[n].t in states[n + 1].threads && states[n + 1].threads[events[n].t].pc == FailWant(events[n].a.name)
    ensures states[n + 1].threads[events[n].t].call == |states[n].calls|
  {
    assert Next(hash, states[n], events[n], states[n + 1]);
  }

  // ---- an exclusive section is one set or delete ----

  function Effect(points: map<Pid, Point>, op: Op): seq<HashRuns.Op<Pid>> {
    match op
    case InitOp => []
    case SetOp(p) => if p in points then [HashRuns.SetOp(points[p].name, p)] else []
    case DelOp(name) => [HashRuns.DelOp(name)]
  }

  // How far a thread inside has got.
  ghost predicate InSection(before: seq<HashRuns.Op<Pid>>, op: Op, effect: seq<HashRuns.Op<Pid>>, s: State, t: Tid) {
    && s.writer == Some(t) && t in s.threads && Effect(s.points, op) == effect && (op.SetOp? ==> op.p in s.points)
    && match s.threads[t].pc
       case WriteIn(o) => o == op && s.table.ops == before
       case SetGrown(p) => op == SetOp(p) && s.table.ops == before
       case SetCleared(p) => op == SetOp(p) && s.table.ops == before
       case DelFreed => op.DelOp? && s.table.ops == before + effect
       case DelShrunk => op.DelOp? && s.table.ops == before + effect
       case WriteOut => s.table.ops == before + effect && (op.InitOp? ==> s.table.inited)
       case _ => false
  }

  // Nobody else can touch the history meanwhile.
  lemma OthersOutside(hash: HashFn, s: State, t: Tid, u: Tid, a: Action, before: seq<HashRuns.Op<Pid>>, op: Op,
                      effect: seq<HashRuns.Op<Pid>>)
    requires Inv(s) && InSection(before, op, effect, s, t) && u != t && s.table.cache != [] && Enabled(s, u, a)
    ensures InSection(before, op, effect, Apply(hash, s, u, a), t)
  {
    hide Inv, Enabled, Apply, CountsOk, TableOk, CacheOk, ThreadsOk, PendingDistinct, MutexOk, CallsOk, WinnersOk;
    StepHistory(hash, s, u, a);
    Step(hash, s, u, a);
    Parts(s);
    Parts(Apply(hash, s, u, a));
  }

  lemma OwnSet(s: State, t: Tid, p: Pid, newCache: seq<Slot<Option<Pid>>>, before: seq<HashRuns.Op<Pid>>,
               effect: seq<HashRuns.Op<Pid>>)
    requires InSection(before, SetOp(p), effect, s, t) && s.threads[t].pc == WriteIn(SetOp(p))
    ensures InSection(before, SetOp(p), effect, DoSet(s, t, p, newCache), t)
  {
    hide Grown, IsWildcard;
  }

  lemma OwnPut(s: State, t: Tid, p: Pid, before: seq<HashRuns.Op<Pid>>, effect: seq<HashRuns.Op<Pid>>)
    requires InSection(before, SetOp(p), effect, s, t) && s.threads[t].pc == SetCleared(p)
    ensures InSection(before, SetOp(p), effect, DoPut(s, t, p), t)
  {
    hide Put, IndexOf;
  }

  lemma OwnDel(s: State, t: Tid, name: string, before: seq<HashRuns.Op<Pid>>, effect: seq<HashRuns.Op<Pid>>)
    requires InSection(before, DelOp(name), effect, s, t) && s.threads[t].pc == WriteIn(DelOp(name))
    ensures InSection(before, DelOp(name), effect, DoDel(s, t, name), t)
  {
    hide IndexOf, IsWildcard, Destroy;
  }

  lemma OwnWrite(hash: HashFn, s: State, t: Tid, a: Action, before: seq<HashRuns.Op<Pid>>, op: Op,
                 effect: seq<HashRuns.Op<Pid>>)
    requires InSection(before, op, effect, s, t) && s.table.cache != [] && a.WriteStep? && Enabled(s, t, a)
    ensures InSection(before, op, effect, Apply(hash, s, t, a), t)
  {
    hide Shrunk, Invalidated, DoSet, DoPut, DoDel, Enabled, Apply, CacheMove;
    Performs(hash, s, t, a);
    assert before + [] == before;
    match s.threads[t].pc {
      case WriteIn(SetOp(p)) => OwnSet(s, t, p, a.newCache, before, effect);
      case WriteIn(DelOp(name)) => OwnDel(s, t, name, before, effect);
      case SetCleared(p) => OwnPut(s, t, p, before, effect);
      case _ =>
    }
  }

  lemma OwnCall(hash: HashFn, s: State, t: Tid, a: Action, before: seq<HashRuns.Op<Pid>>, op: Op,
                effect: seq<HashRuns.Op<Pid>>)
    requires Inv(s) && InSection(before, op, effect, s, t) && s.table.cache != [] && !a.WriteStep? && !a.ReleaseWrite?
    requires Enabled(s, t, a)
    ensures InSection(before, op, effect, Apply(hash, s, t, a), t)
  {
    hide Inv, PcOk, CacheMove, Effect;
    OwnPart(s, t);
    assert a.Call? || a.Unnest?;
  }

  lemma {:induction false} SectionSoFar(hash: HashFn, states: seq<State>, events: seq<Event>, n: nat, m: nat, t: Tid,
                                        op: Op)
    requires Steps(hash, states, events) && Initial(states[0]) && n < m <= |events|
    requires events[n] == Event(t, TakeWrite) && t in states[n].threads && states[n].threads[t].pc == WriteWant(op)
    requires forall j :: n < j < m ==> events[j] != Event(t, ReleaseWrite)
    ensures InSection(states[n].table.ops, op, Effect(states[n].points, op), states[m], t)
    decreases m
  {
    hide Inv, Initial, Enabled, Apply, InSection;
    assert Next(hash, states[m - 1], events[m - 1], states[m]);
    PartOfRun(hash, states, events, m - 1);
    if m == n + 1 {
      SectionStarts(hash, states[n], t, op);
    } else {
      SectionSoFar(hash, states, events, n, m - 1, t, op);
      var s, u, a := states[m - 1], events[m - 1].t, events[m - 1].a;
      var before, effect := states[n].table.ops, Effect(states[n].points, op);
      if u != t {
        OthersOutside(hash, s, t, u, a, before, op, effect);
      } else if a.WriteStep? {
        OwnWrite(hash, s, t, a, before, op, effect);
      } else {
        OwnCall(hash, s, t, a, before, op, effect);
      }
    }
  }

  lemma SectionStarts(hash: HashFn, s: State, t: Tid, op: Op)
    requires Inv(s) && s.table.cache != [] && Enabled(s, t, TakeWrite) && s.threads[t].pc == WriteWant(op)
    ensures InSection(s.table.ops, op, Effect(s.points, op), Apply(hash, s, t, TakeWrite), t)
  {
    hide Inv, CountOk, CacheMove, Effect, RecordOk, OutcomeOk, UnderDecision, Lookup;
    OwnPart(s, t);
  }

  // Between taking and releasing the exclusive lock a thread performs exactly the set or delete it came
  // for, and no other thread performs any, whatever else happens meanwhile. An initialising section leaves
  // the table there.
  lemma SectionIsOneOp(hash: HashFn, states: seq<State>, events: seq<Event>, n: nat, m: nat, t: Tid, op: Op)
    requires Steps(hash, states, events) && Initial(states[0]) && n < m < |events|
    requires events[n] == Event(t, TakeWrite) && t in states[n].threads && states[n].threads[t].pc == WriteWant(op)
    requires events[m] == Event(t, ReleaseWrite) && forall j :: n < j < m ==> events[j] != Event(t, ReleaseWrite)
    ensures states[m].table.ops == states[n].table.ops + Effect(states[n].points, op)
    ensures op.InitOp? ==> states[m].table.inited
  {
    hide Inv, Initial, Apply, CacheMove, Effect;
    SectionSoFar(hash, states, events, n, m, t, op);
    assert Next(hash, states[m], events[m], states[m + 1]);
  }

  // So a call made after a writer has let go of the lock, in state `k`, is answered with that write behind it.
  lemma CallsSeeEarlierWrites(hash: HashFn, states: seq<State>, events: seq<Event>, n: nat, m: nat, t: Tid, op: Op,
                              k: nat, last: nat, i: nat)
    requires Steps(hash, states, events) && Initial(states[0]) && n < m < k <= last <= |events|
    requires events[n] == Event(t, TakeWrite) && t in states[n].threads && states[n].threads[t].pc == WriteWant(op)
    requires events[m] == Event(t, ReleaseWrite) && forall j :: n < j < m ==> events[j] != Event(t, ReleaseWrite)
    requires i < |states[last].log| && states[last].log[i].id >= |states[k].calls|
    ensures states[n].table.ops + Effect(states[n].points, op) <= states[last].log[i].table.ops
  {
    hide Initial, Steps, Effect;
    SectionIsOneOp(hash, states, events, n, m, t, op);
    OpsGrow(hash, states, events, m, k);
    CallsInRealTime(hash, states, events, k, last, i);
  }
}
