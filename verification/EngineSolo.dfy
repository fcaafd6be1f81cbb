// What one call does when it runs on its own, start to finish, whatever the steps it takes.
module EngineSolo {
  import opened Slots
  import opened Caches
  import opened Wildcards
  import opened WTables
  import opened Engine
  import opened EngineInvariants
  import opened EngineRuns
  import opened EngineProgress
  import Names = WTableRuns
  import HashRuns

  // One thread takes these steps, and no other thread moves.
  ghost function Perform(hash: HashFn, s: State, t: Tid, acts: seq<Action>): Option<State>
    decreases |acts|
  {
    if acts == [] then Some(s)
    else if s.table.cache == [] || !Enabled(s, t, acts[0]) then None
    else Perform(hash, Apply(hash, s, t, acts[0]), t, acts[1..])
  }

  // The steps of one call: it starts with `first`, and the thread starts no other.
  ghost predicate OneCall(acts: seq<Action>, first: Action) {
    acts != [] && acts[0] == first && forall i :: 1 <= i < |acts| ==> !Starts(acts[i])
  }

  lemma {:induction false} PerformKeeps(hash: HashFn, s: State, t: Tid, acts: seq<Action>)
    requires Inv(s) && Perform(hash, s, t, acts).Some?
    ensures Inv(Perform(hash, s, t, acts).value)
    decreases |acts|
  {
    hide Inv, Enabled, Apply;
    if acts != [] {
      Step(hash, s, t, acts[0]);
      PerformKeeps(hash, Apply(hash, s, t, acts[0]), t, acts[1..]);
    }
  }

  // ---- every call does complete ----

  lemma NotHeldUp(s: State, t: Tid)
    requires NobodyElse(s, t) && MutexOk(s.points, s.threads)
    ensures !HeldUp(s, t)
  {
    hide FlagsOk, HoldsWrite;
  }

  lemma MovesAlone(s: State, t: Tid) returns (a: Action)
    requires Inv(s) && s.table.cache != [] && NobodyElse(s, t) && !s.threads[t].pc.Idle?
    ensures Enabled(s, t, a) && !Starts(a)
  {
    hide Inv, CountsOk, TableOk, CacheOk, ThreadsOk, PendingDistinct, MutexOk, CallsOk, WinnersOk, Enabled, CanMove,
      HeldUp, HoldsRead, HoldsWrite;
    Parts(s);
    var pc := s.threads[t].pc;
    if s.threads[t].nested > 0 {
      a := Unnest;
      JustMoves(s, t, a);
    } else if pc.FailWant? {
      a := TakeRead;
      WantsOutside(pc);
      JustMoves(s, t, a);
    } else {
      if HoldsWrite(pc) {
        WriterMoves(s, t);
      } else if HoldsRead(pc) {
        NotHeldUp(s, t);
        ReaderMoves(s, t);
      } else {
        OutsideMoves(s, t);
      }
      a := Chosen(s, t);
    }
  }

  lemma WantsOutside(pc: Pc)
    requires pc.FailWant?
    ensures !HoldsRead(pc) && !HoldsWrite(pc)
  {
  }

  lemma JustMoves(s: State, t: Tid, a: Action)
    requires t in s.threads && !Starts(a)
    requires (a.Unnest? && s.threads[t].nested > 0)
             || (a.TakeRead? && s.threads[t].nested == 0 && s.threads[t].pc.FailWant? && s.writer.None?)
    ensures Enabled(s, t, a)
  {
    hide CacheMove;
  }

  lemma Chosen(s: State, t: Tid) returns (a: Action)
    requires CanMove(s, t)
    ensures Enabled(s, t, a) && !Starts(a)
  {
    hide Enabled;
    a :| Enabled(s, t, a) && Allowed(s, a);
  }

  // A call that nobody else holds up can run to its end.
  lemma {:induction false} CompletesAlone(hash: HashFn, s: State, t: Tid) returns (acts: seq<Action>)
    requires Inv(s) && NobodyElse(s, t)
    ensures Perform(hash, s, t, acts).Some? && forall i :: 0 <= i < |acts| ==> !Starts(acts[i])
    ensures var s' := Perform(hash, s, t, acts).value; t in s'.threads && s'.threads[t].pc.Idle?
    decreases TotalWork(s.threads)
  {
    hide Inv, Enabled, Apply, TotalWork, Starts, HoldsRead, HoldsWrite;
    acts := [];
    if !s.threads[t].pc.Idle? {
      CacheThere(s);
      var a := MovesAlone(s, t);
      StepWork(hash, s, t, a);
      Step(hash, s, t, a);
      var rest := CompletesAlone(hash, Apply(hash, s, t, a), t);
      acts := [a] + rest;
      assert acts[1..] == rest;
    }
  }

  // ---- the one step a place allows ----

  lemma OnlyStep(s: State, t: Tid, a: Action)
    requires Enabled(s, t, a) && !Starts(a) && s.threads[t].nested == 0
    ensures match s.threads[t].pc
            case Idle => false
            case FailWant(_) => a.TakeRead?
            case FailFinals(_) => a.ProbeFinals?
            case FailCache(_) => a.ProbeCache?
            case FailWalk(_) => a.Walk?
            case FailFill(_, _) => a.Fill?
            case FailFound(_, _) => a.Resolve?
            case FailCheck(_, _) => a.Check?
            case FailDecide(_, _) => a.Decide?
            case FailFire(_, _) => a.Fire?
            case FailPass(_, _) => a.Pass?
            case FailOut(_, _, _, _) => a.ReleaseRead?
            case FailDone(_) => a.Return?
            case EnableCreate(_, _, _, _) => a.Create?
            case EnableReady(_) => a.Insert?
            case WriteWant(_) => a.TakeWrite?
            case WriteOut => a.ReleaseWrite?
            case WriteDone => a.Finish?
            case _ => a.WriteStep?
  {
    hide CacheMove;
  }

  // ---- writing ----

  predicate Alone(s: State, t: Tid) {
    t in s.threads && s.threads[t].pc.Idle? && s.threads[t].rec == 0 && s.threads[t].nested == 0
    && s.writer.None? && s.readers == {} && s.table.cache != []
  }

  // Inside the exclusive section, with nobody else there.
  function Within(s: State, t: Tid, pc: Pc): State
    requires t in s.threads
  {
    s.(threads := s.threads[t := s.threads[t].(pc := pc, rec := 1)], writer := Some(t))
  }

  function Changed(s: State, after: State): State {
    s.(points := after.points, table := after.table)
  }

  // The state after the name is bound to the new point, the point it replaces destroyed, and nothing else
  // touched.
  ghost predicate Linked(s0: State, pt: Point, p: Pid, after: State) {
    && p !in s0.points && after.points == Unlinked(s0.points[p := pt], s0.table.enabled, pt.name)
    && after.table.enabled == s0.table.enabled[pt.name := p] && after.table.inited
    && after.table.ops == s0.table.ops + [HashRuns.SetOp(pt.name, p)] && after.table.cache != []
  }

  // Where an enabling of a new point `pt` can stand, once started.
  ghost predicate Enabling(s0: State, t: Tid, pt: Point, s: State)
    requires t in s0.threads
  {
    t in s.threads && s.threads[t].nested == 0 && match s.threads[t].pc
    case EnableCreate(n, d, o, f) => NewPoint(n, d, o, f) == pt && s == GotoRec(s0, t, EnableCreate(n, d, o, f), 1)
    case EnableReady(p) => p !in s0.points && s == GotoRec(SetPoint(s0, p, pt), t, EnableReady(p), 0)
    case WriteWant(op) => op.SetOp? && op.p !in s0.points && s == GotoRec(SetPoint(s0, op.p, pt), t, WriteWant(op), 1)
    case WriteIn(op) => op.SetOp? && op.p !in s0.points && s == Within(SetPoint(s0, op.p, pt), t, WriteIn(op))
    case SetGrown(p) => p !in s0.points && IsWildcard(pt.name) && s.table.cache != []
                        && s == Within(Growing(s0, pt, p, s.table.cache), t, SetGrown(p))
    case SetCleared(p) => p !in s0.points && IsWildcard(pt.name) && s.table.cache != []
                          && s == Within(Growing(s0, pt, p, s.table.cache), t, SetCleared(p))
    case WriteOut => s == Within(Changed(s0, s), t, WriteOut) && exists p :: Linked(s0, pt, p, s)
    case WriteDone => s == GotoRec(Changed(s0, s), t, WriteDone, 1) && exists p :: Linked(s0, pt, p, s)
    case Idle => s == Changed(s0, s) && exists p :: Linked(s0, pt, p, s)
    case _ => false
  }

  function Growing(s0: State, pt: Point, p: Pid, cache: seq<Slot<Option<Pid>>>): State {
    SetPoint(s0, p, pt).(table := s0.table.(ws := Grown(s0.table.ws), cache := cache))
  }

  lemma Creating(hash: HashFn, s0: State, t: Tid, pt: Point, s: State, a: Action)
    requires Alone(s0, t) && Enabling(s0, t, pt, s) && Enabled(s, t, a) && s.table.cache != [] && a.Create?
    ensures Enabling(s0, t, pt, Apply(hash, s, t, a))
  {
    hide Linked, Growing, CacheMove, Within;
  }

  lemma Inserting(hash: HashFn, s0: State, t: Tid, pt: Point, s: State, a: Action)
    requires Alone(s0, t) && Enabling(s0, t, pt, s) && Enabled(s, t, a) && s.table.cache != [] && a.Insert?
    ensures Enabling(s0, t, pt, Apply(hash, s, t, a))
  {
    hide Linked, Growing, CacheMove, NewPoint, Within;
  }

  lemma Entering(hash: HashFn, s0: State, t: Tid, pt: Point, s: State, a: Action)
    requires Alone(s0, t) && Enabling(s0, t, pt, s) && Enabled(s, t, a) && s.table.cache != [] && a.TakeWrite?
    ensures Enabling(s0, t, pt, Apply(hash, s, t, a))
  {
    hide Linked, Growing, CacheMove, NewPoint;
  }

  lemma LinkedBy(s0: State, pt: Point, p: Pid, s: State, after: State)
    requires Linked(s0, pt, p, s) && after.points == s.points && after.table == s.table
    ensures Linked(s0, pt, p, after)
  {
    hide Unlinked;
  }

  lemma LeavingShape(hash: HashFn, s0: State, t: Tid, s: State, a: Action)
    requires Alone(s0, t) && t in s.threads && Enabled(s, t, a) && s.table.cache != [] && (a.ReleaseWrite? || a.Finish?)
    ensures var s' := Apply(hash, s, t, a);
            && s'.points == s.points && s'.table == s.table
            && (s.threads[t].pc.WriteOut? && s == Within(Changed(s0, s), t, WriteOut) ==>
                  s'.threads.Keys == s0.threads.Keys && s' == GotoRec(Changed(s0, s'), t, WriteDone, 1))
            && (s.threads[t].pc.WriteDone? && s == GotoRec(Changed(s0, s), t, WriteDone, 1) ==> s' == Changed(s0, s'))
  {
    hide CacheMove;
  }

  lemma Leaving(hash: HashFn, s0: State, t: Tid, pt: Point, s: State, a: Action)
    requires Alone(s0, t) && Enabling(s0, t, pt, s) && Enabled(s, t, a) && s.table.cache != []
    requires (s.threads[t].pc.WriteOut? && a.ReleaseWrite?) || (s.threads[t].pc.WriteDone? && a.Finish?)
    ensures Enabling(s0, t, pt, Apply(hash, s, t, a))
  {
    hide Apply, Enabled, Linked, Growing, NewPoint;
    LeavingShape(hash, s0, t, s, a);
    var p :| Linked(s0, pt, p, s);
    LinkedBy(s0, pt, p, s, Apply(hash, s, t, a));
  }

  lemma ExactLinks(s0: State, t: Tid, pt: Point, p: Pid, newCache: seq<Slot<Option<Pid>>>)
    requires Alone(s0, t) && s0.table.inited && Sound(s0.table) && p !in s0.points && !IsWildcard(pt.name)
    ensures var s' := DoSet(Within(SetPoint(s0, p, pt), t, WriteIn(SetOp(p))), t, p, newCache);
            Linked(s0, pt, p, s') && s' == Within(Changed(s0, s'), t, WriteOut)
  {
    hide WellKeyed, Holds, IsWildcard, Destroy;
    assert pt.name in s0.table.finals <==> pt.name in s0.table.enabled;
  }

  lemma GrownFits(s0: State, pt: Point)
    requires Sound(s0.table) && Bounded(|s0.table.ws|, |Live(s0.table.ws)|) && IsWildcard(pt.name)
    ensures var grown := Grown(s0.table.ws);
            && Sound(s0.table.(ws := grown)) && Bounded(|grown|, |Live(grown)|) && |Live(grown)| + 1 < |grown|
  {
    hide WellKeyed, Holds, IsWildcard, Live, Grown, FirstMatch;
    GrownFacts(s0.table.ws, Names.PatternNames(s0.table.enabled));
  }

  lemma PatternLinks(s0: State, t: Tid, pt: Point, p: Pid, cache: seq<Slot<Option<Pid>>>)
    requires Alone(s0, t) && s0.table.inited && Sound(s0.table) && Bounded(|s0.table.ws|, |Live(s0.table.ws)|)
    requires p !in s0.points && IsWildcard(pt.name) && cache != []
    ensures var s' := DoPut(Within(Growing(s0, pt, p, cache), t, SetCleared(p)), t, p);
            Linked(s0, pt, p, s') && s' == Within(Changed(s0, s'), t, WriteOut)
  {
    hide Sound, Bounded, Live, Grown, IsWildcard, IndexOf, Put, Destroy;
    GrownFits(s0, pt);
    PutFacts(s0.table.(ws := Grown(s0.table.ws)), pt.name, p);
  }

  lemma Growth(s0: State, t: Tid, pt: Point, p: Pid, newCache: seq<Slot<Option<Pid>>>)
    requires Alone(s0, t) && p !in s0.points && IsWildcard(pt.name) && newCache != []
    ensures DoSet(Within(SetPoint(s0, p, pt), t, WriteIn(SetOp(p))), t, p, newCache)
         == Within(Growing(s0, pt, p, newCache), t, SetGrown(p))
  {
    hide Grown, IsWildcard;
  }

  lemma NewCacheThere(s: State, pc: Pc, newCache: seq<Slot<Option<Pid>>>)
    requires CacheMove(s, pc, newCache) && s.table.cache != []
    ensures newCache != []
  {
    hide Subsumed, Resizes;
  }

  lemma Clearing(s0: State, t: Tid, pt: Point, p: Pid, cache: seq<Slot<Option<Pid>>>)
    requires Alone(s0, t) && p !in s0.points && cache != []
    ensures var s := Within(Growing(s0, pt, p, cache), t, SetGrown(p));
            && Goto(SetTable(s, s.table.(cache := Invalidated(cache))), t, SetCleared(p))
            == Within(Growing(s0, pt, p, Invalidated(cache)), t, SetCleared(p))
            && Invalidated(cache) != []
  {
    hide Grown;
  }

  lemma FreeTable(s: State, t: Tid)
    requires Inv(s) && Alone(s, t)
    ensures Sound(s.table) && Bounded(|s.table.ws|, |Live(s.table.ws)|)
  {
    hide LocksOk, CountsOk, ThreadsOk, PendingDistinct, MutexOk, CallsOk, WinnersOk, Sound, Tracks, Bounded, Live,
      Agrees;
  }

  lemma WritesSet(hash: HashFn, s0: State, t: Tid, pt: Point, s: State, a: Action, p: Pid)
    requires Inv(s0) && Alone(s0, t) && s0.table.inited && Enabling(s0, t, pt, s) && s.table.cache != []
    requires a.WriteStep? && Enabled(s, t, a) && s.threads[t].pc == WriteIn(SetOp(p))
    ensures Enabling(s0, t, pt, Apply(hash, s, t, a))
  {
    hide Inv, Linked, Sound, Bounded, Live, Grown, IsWildcard, NewPoint, DoSet, DoPut, DoDel, CacheMove, Invalidated;
    FreeTable(s0, t);
    NewCacheThere(s, s.threads[t].pc, a.newCache);
    if IsWildcard(pt.name) {
      Growth(s0, t, pt, p, a.newCache);
    } else {
      ExactLinks(s0, t, pt, p, a.newCache);
    }
  }

  lemma WritesClear(hash: HashFn, s0: State, t: Tid, pt: Point, s: State, a: Action, p: Pid)
    requires Alone(s0, t) && Enabling(s0, t, pt, s) && s.table.cache != []
    requires a.WriteStep? && Enabled(s, t, a) && s.threads[t].pc == SetGrown(p)
    ensures Enabling(s0, t, pt, Apply(hash, s, t, a))
  {
    hide Linked, Grown, IsWildcard, NewPoint, DoSet, DoPut, DoDel, CacheMove, Invalidated;
    Clearing(s0, t, pt, p, s.table.cache);
  }

  lemma WritesPut(hash: HashFn, s0: State, t: Tid, pt: Point, s: State, a: Action, p: Pid)
    requires Inv(s0) && Alone(s0, t) && s0.table.inited && Enabling(s0, t, pt, s) && s.table.cache != []
    requires a.WriteStep? && Enabled(s, t, a) && s.threads[t].pc == SetCleared(p)
    ensures Enabling(s0, t, pt, Apply(hash, s, t, a))
  {
    hide Inv, Linked, Sound, Bounded, Live, Growing, IsWildcard, NewPoint, DoSet, DoPut, DoDel, CacheMove;
    FreeTable(s0, t);
    PatternLinks(s0, t, pt, p, s.table.cache);
  }

  lemma EnablingStep(hash: HashFn, s0: State, t: Tid, pt: Point, s: State, a: Action)
    requires Inv(s0) && Alone(s0, t) && s0.table.inited && Enabling(s0, t, pt, s) && s.table.cache != []
    requires Enabled(s, t, a) && !Starts(a)
    ensures Enabling(s0, t, pt, Apply(hash, s, t, a))
  {
    hide Inv, Enabled, Apply, Starts, Linked, Growing, IsWildcard, NewPoint;
    OnlyStep(s, t, a);
    match s.threads[t].pc {
      case EnableCreate(_, _, _, _) => Creating(hash, s0, t, pt, s, a);
      case EnableReady(_) => Inserting(hash, s0, t, pt, s, a);
      case WriteWant(_) => Entering(hash, s0, t, pt, s, a);
      case WriteIn(op) => WritesSet(hash, s0, t, pt, s, a, op.p);
      case SetGrown(p) => WritesClear(hash, s0, t, pt, s, a, p);
      case SetCleared(p) => WritesPut(hash, s0, t, pt, s, a, p);
      case _ => Leaving(hash, s0, t, pt, s, a);
    }
  }

  lemma {:induction false} EnablingRuns(hash: HashFn, s0: State, t: Tid, pt: Point, s: State, acts: seq<Action>)
    requires Inv(s0) && Alone(s0, t) && s0.table.inited && Enabling(s0, t, pt, s)
    requires Perform(hash, s, t, acts).Some? && forall i :: 0 <= i < |acts| ==> !Starts(acts[i])
    ensures Enabling(s0, t, pt, Perform(hash, s, t, acts).value)
    decreases |acts|
  {
    hide Inv, Enabled, Apply, Starts, Enabling, Alone;
    if acts != [] {
      EnablingStep(hash, s0, t, pt, s, acts[0]);
      EnablingRuns(hash, s0, t, pt, Apply(hash, s, t, acts[0]), acts[1..]);
    }
  }

  lemma EnableStarts(hash: HashFn, s: State, t: Tid, name: string, decide: Method, onetime: bool, failnum: int)
    requires Alone(s, t) && Enabled(s, t, StartEnable(name, decide, onetime, failnum))
    ensures s.table.inited
    ensures Enabling(s, t, NewPoint(name, decide, onetime, failnum),
                     Apply(hash, s, t, StartEnable(name, decide, onetime, failnum)))
  {
    hide CacheMove, NewPoint;
  }

  // fiu_enable and its kin on their own: every run of one to its end binds the name to exactly the point
  // asked for, destroys the one it replaces, and leaves everything else as it was, the locks free and
  // rec_count back.
  lemma EnableAlone(hash: HashFn, s: State, t: Tid, name: string, decide: Method, onetime: bool, failnum: int,
                    acts: seq<Action>, s': State)
    requires Inv(s) && Alone(s, t) && OneCall(acts, StartEnable(name, decide, onetime, failnum))
    requires Perform(hash, s, t, acts) == Some(s') && t in s'.threads && s'.threads[t].pc.Idle?
    ensures s' == Changed(s, s') && exists p :: Linked(s, NewPoint(name, decide, onetime, failnum), p, s')
    ensures name in s'.table.enabled && s'.table.enabled[name] in s'.points && s'.table.enabled[name] !in s.points
    ensures var pt := s'.points[s'.table.enabled[name]];
            && pt.name == name && pt.decide == decide && pt.onetime == onetime && pt.failnum == failnum
            && !pt.failedOnce && pt.owner.None? && pt.winner.None? && !pt.freed && pt.stored == {failnum}
  {
    hide Inv, Alone, Enabled, Apply, Starts, Linked, NewPoint;
    EnableStarts(hash, s, t, name, decide, onetime, failnum);
    var s1 := Apply(hash, s, t, acts[0]);
    EnablingRuns(hash, s, t, NewPoint(name, decide, onetime, failnum), s1, acts[1..]);
    var p :| Linked(s, NewPoint(name, decide, onetime, failnum), p, s');
    NamesAreLive(s);
    NewlyLinked(s, name, decide, onetime, failnum, p, s');
  }

  lemma NamesAreLive(s: State)
    requires Inv(s)
    ensures forall k :: k in s.table.enabled ==> s.table.enabled[k] in s.points
  {
    hide LocksOk, CountsOk, CacheOk, ThreadsOk, PendingDistinct, MutexOk, CallsOk, WinnersOk, Sound, Tracks, Roomy;
  }

  lemma NewlyLinked(s: State, name: string, decide: Method, onetime: bool, failnum: int, p: Pid, s': State)
    requires Linked(s, NewPoint(name, decide, onetime, failnum), p, s')
    requires forall k :: k in s.table.enabled ==> s.table.enabled[k] in s.points
    ensures name in s'.table.enabled && s'.table.enabled[name] == p && p in s'.points && p !in s.points
    ensures var pt := s'.points[p];
            && pt.name == name && pt.decide == decide && pt.onetime == onetime && pt.failnum == failnum
            && !pt.failedOnce && pt.owner.None? && pt.winner.None? && !pt.freed && pt.stored == {failnum}
  {
  }

  function Inited(s: State): State {
    s.(table := s.table.(inited := true))
  }

  // Where an initialising call can stand, once started.
  ghost predicate Initing(s0: State, t: Tid, s: State)
    requires t in s0.threads
  {
    t in s.threads && s.threads[t].nested == 0 && match s.threads[t].pc
    case WriteWant(op) => op == InitOp && s == GotoRec(s0, t, WriteWant(InitOp), 1)
    case WriteIn(op) => op == InitOp && s == Within(s0, t, WriteIn(InitOp))
    case WriteOut => s == Within(Inited(s0), t, WriteOut)
    case WriteDone => s == GotoRec(Inited(s0), t, WriteDone, 1)
    case Idle => s == Inited(s0)
    case _ => false
  }

  lemma InitWrites(hash: HashFn, s0: State, t: Tid, s: State, a: Action)
    requires Alone(s0, t) && Initing(s0, t, s) && Enabled(s, t, a) && s.table.cache != []
    requires s.threads[t].pc.WriteIn? && a.WriteStep?
    ensures Initing(s0, t, Apply(hash, s, t, a))
  {
    hide CacheMove, DoSet, DoPut, DoDel;
  }

  lemma InitingStep(hash: HashFn, s0: State, t: Tid, s: State, a: Action)
    requires Alone(s0, t) && Initing(s0, t, s) && Enabled(s, t, a) && s.table.cache != [] && !Starts(a)
    ensures Initing(s0, t, Apply(hash, s, t, a))
  {
    hide CacheMove, Starts, DoWriteStep;
    OnlyStep(s, t, a);
    if s.threads[t].pc.WriteIn? {
      InitWrites(hash, s0, t, s, a);
    }
  }

  lemma {:induction false} InitingRuns(hash: HashFn, s0: State, t: Tid, s: State, acts: seq<Action>)
    requires Alone(s0, t) && Initing(s0, t, s)
    requires Perform(hash, s, t, acts).Some? && forall i :: 0 <= i < |acts| ==> !Starts(acts[i])
    ensures Initing(s0, t, Perform(hash, s, t, acts).value)
    decreases |acts|
  {
    hide Enabled, Apply, Starts, Initing, Alone;
    if acts != [] {
      InitingStep(hash, s0, t, s, acts[0]);
      InitingRuns(hash, s0, t, Apply(hash, s, t, acts[0]), acts[1..]);
    }
  }

  lemma InitStarts(hash: HashFn, s: State, t: Tid)
    requires Alone(s, t) && Enabled(s, t, StartInit)
    ensures Initing(s, t, Apply(hash, s, t, StartInit))
  {
    hide CacheMove;
  }

  // fiu_init on its own: every run of it to its end leaves the table there, and everything else as it was.
  // Called again it changes nothing at all.
  lemma InitAlone(hash: HashFn, s: State, t: Tid, acts: seq<Action>, s': State)
    requires Alone(s, t) && OneCall(acts, StartInit)
    requires Perform(hash, s, t, acts) == Some(s') && t in s'.threads && s'.threads[t].pc.Idle?
    ensures s'.table.inited && s' == s.(table := s.table.(inited := true))
    ensures s.table.inited ==> s' == s
  {
    hide Alone, Enabled, Apply, Starts;
    InitStarts(hash, s, t);
    InitingRuns(hash, s, t, Apply(hash, s, t, acts[0]), acts[1..]);
  }

  // The state after the name is taken out of force, its point, if any, destroyed, and nothing else touched.
  ghost predicate Unlisted(s0: State, name: string, after: State) {
    && after.points == Unlinked(s0.points, s0.table.enabled, name)
    && after.table.enabled == s0.table.enabled - {name} && after.table.inited
    && after.table.ops == s0.table.ops + [HashRuns.DelOp(name)] && after.table.cache != []
  }

  // Where a disabling can stand, once started.
  ghost predicate Disabling(s0: State, t: Tid, name: string, s: State)
    requires t in s0.threads
  {
    t in s.threads && s.threads[t].nested == 0 && match s.threads[t].pc
    case WriteWant(op) => op == DelOp(name) && s == GotoRec(s0, t, WriteWant(op), 1)
    case WriteIn(op) => op == DelOp(name) && s == Within(s0, t, WriteIn(op))
    case DelFreed => Unlisted(s0, name, s) && s == Within(Changed(s0, s), t, DelFreed)
    case DelShrunk => Unlisted(s0, name, s) && s == Within(Changed(s0, s), t, DelShrunk)
    case WriteOut => Unlisted(s0, name, s) && s == Within(Changed(s0, s), t, WriteOut)
    case WriteDone => Unlisted(s0, name, s) && s == GotoRec(Changed(s0, s), t, WriteDone, 1)
    case Idle => Unlisted(s0, name, s) && s == Changed(s0, s)
    case _ => false
  }

  lemma DisableEnters(hash: HashFn, s0: State, t: Tid, name: string, s: State, a: Action)
    requires Alone(s0, t) && Disabling(s0, t, name, s) && Enabled(s, t, a) && s.table.cache != [] && a.TakeWrite?
    ensures Disabling(s0, t, name, Apply(hash, s, t, a))
  {
    hide Unlisted, CacheMove;
  }

  lemma DelUnlists(s0: State, t: Tid, name: string)
    requires Alone(s0, t) && s0.table.inited && Sound(s0.table) && Bounded(|s0.table.ws|, |Live(s0.table.ws)|)
    ensures var s' := DoDel(Within(s0, t, WriteIn(DelOp(name))), t, name);
            && Unlisted(s0, name, s')
            && (s' == Within(Changed(s0, s'), t, DelFreed) || s' == Within(Changed(s0, s'), t, WriteOut))
  {
    hide Sound, Bounded, Live, IsWildcard, IndexOf, Destroy;
    if IsWildcard(name) {
      DelTable(s0.table, name);
    } else {
      FinalsAreExact(s0.table, name);
    }
  }

  lemma FinalsAreExact(table: Table, name: string)
    requires Sound(table) && !IsWildcard(name)
    ensures name in table.finals <==> name in table.enabled
    ensures name in table.finals ==> table.finals[name] == table.enabled[name]
  {
    hide WellKeyed, Holds, IsWildcard;
  }

  lemma DisableFrees(hash: HashFn, s0: State, t: Tid, name: string, s: State, a: Action)
    requires Inv(s0) && Alone(s0, t) && s0.table.inited && Disabling(s0, t, name, s) && s.table.cache != []
    requires a.WriteStep? && Enabled(s, t, a) && s.threads[t].pc == WriteIn(DelOp(name))
    ensures Disabling(s0, t, name, Apply(hash, s, t, a))
  {
    hide Inv, Unlisted, Sound, Bounded, Live, DoSet, DoPut, DoDel, CacheMove;
    FreeTable(s0, t);
    DelUnlists(s0, t, name);
  }

  lemma DisableShrinks(hash: HashFn, s0: State, t: Tid, name: string, s: State, a: Action)
    requires Alone(s0, t) && Disabling(s0, t, name, s) && s.table.cache != []
    requires a.WriteStep? && Enabled(s, t, a) && (s.threads[t].pc.DelFreed? || s.threads[t].pc.DelShrunk?)
    ensures Disabling(s0, t, name, Apply(hash, s, t, a))
  {
    hide Unlinked, Shrunk, DoSet, DoPut, DoDel, CacheMove;
    NewCacheThere(s, s.threads[t].pc, a.newCache);
  }

  lemma DisableLeaves(hash: HashFn, s0: State, t: Tid, name: string, s: State, a: Action)
    requires Alone(s0, t) && Disabling(s0, t, name, s) && Enabled(s, t, a) && s.table.cache != []
    requires (s.threads[t].pc.WriteOut? && a.ReleaseWrite?) || (s.threads[t].pc.WriteDone? && a.Finish?)
    ensures Disabling(s0, t, name, Apply(hash, s, t, a))
  {
    hide Apply, Enabled, Unlinked;
    LeavingShape(hash, s0, t, s, a);
  }

  lemma DisablingStep(hash: HashFn, s0: State, t: Tid, name: string, s: State, a: Action)
    requires Inv(s0) && Alone(s0, t) && s0.table.inited && Disabling(s0, t, name, s) && s.table.cache != []
    requires Enabled(s, t, a) && !Starts(a)
    ensures Disabling(s0, t, name, Apply(hash, s, t, a))
  {
    hide Inv, Enabled, Apply, Starts, Unlisted;
    OnlyStep(s, t, a);
    match s.threads[t].pc {
      case WriteWant(_) => DisableEnters(hash, s0, t, name, s, a);
      case WriteIn(_) => DisableFrees(hash, s0, t, name, s, a);
      case DelFreed => DisableShrinks(hash, s0, t, name, s, a);
      case DelShrunk => DisableShrinks(hash, s0, t, name, s, a);
      case _ => DisableLeaves(hash, s0, t, name, s, a);
    }
  }

  lemma {:induction false} DisablingRuns(hash: HashFn, s0: State, t: Tid, name: string, s: State, acts: seq<Action>)
    requires Inv(s0) && Alone(s0, t) && s0.table.inited && Disabling(s0, t, name, s)
    requires Perform(hash, s, t, acts).Some? && forall i :: 0 <= i < |acts| ==> !Starts(acts[i])
    ensures Disabling(s0, t, name, Perform(hash, s, t, acts).value)
    decreases |acts|
  {
    hide Inv, Enabled, Apply, Starts, Disabling, Alone;
    if acts != [] {
      DisablingStep(hash, s0, t, name, s, acts[0]);
      DisablingRuns(hash, s0, t, name, Apply(hash, s, t, acts[0]), acts[1..]);
    }
  }

  lemma DisableStarts(hash: HashFn, s: State, t: Tid, name: string)
    requires Alone(s, t) && Enabled(s, t, StartDisable(name))
    ensures s.table.inited && Disabling(s, t, name, Apply(hash, s, t, StartDisable(name)))
  {
    hide CacheMove;
  }

  // fiu_disable on its own: every run of it to its end takes the name out of force, destroys its point, if
  // any, and leaves everything else as it was.
  lemma DisableAlone(hash: HashFn, s: State, t: Tid, name: string, acts: seq<Action>, s': State)
    requires Inv(s) && Alone(s, t) && OneCall(acts, StartDisable(name))
    requires Perform(hash, s, t, acts) == Some(s') && t in s'.threads && s'.threads[t].pc.Idle?
    ensures s' == Changed(s, s') && Unlisted(s, name, s')
  {
    hide Inv, Alone, Enabled, Apply, Starts, Unlisted;
    DisableStarts(hash, s, t, name);
    DisablingRuns(hash, s, t, name, Apply(hash, s, t, acts[0]), acts[1..]);
  }

  // ---- reading ----

  // Outside the library, with no writer inside; other readers do not matter.
  predicate Outside(s: State, t: Tid) {
    t in s.threads && s.threads[t].pc.Idle? && s.threads[t].rec == 0 && s.threads[t].nested == 0
    && s.writer.None? && t !in s.readers && s.table.cache != []
  }

  // What the method of the point decided, and the failnum it left.
  datatype Decision = Decision(fails: bool, failnum: int)

  // The last decision among the steps.
  function Decided(before: Option<Decision>, acts: seq<Action>): Option<Decision>
    decreases |acts|
  {
    if acts == [] then before else Decided(AfterStep(before, acts[0]), acts[1..])
  }

  function AfterStep(before: Option<Decision>, a: Action): Option<Decision> {
    if a.Decide? then Some(Decision(a.fails, a.failnum)) else before
  }

  // A ONETIME point that has failed is out of play.
  predicate InPlay(pt: Point) {
    !(pt.onetime && pt.failedOnce)
  }

  predicate Fires(dec: Option<Decision>) {
    dec.Some? && dec.value.fails
  }

  function Result(dec: Option<Decision>): int {
    if Fires(dec) then dec.value.failnum else 0
  }

  // The point after a call has decided on it, and before it lets go of it.
  function DecidedOn(pt: Point, d: Decision): Point {
    pt.(failnum := d.failnum, stored := pt.stored + {d.failnum})
  }

  function AfterCall(pt: Point, d: Decision, call: nat): Point {
    var after := DecidedOn(pt, d);
    if d.fails && pt.onetime then after.(failedOnce := true, winner := Some(call)) else after
  }

  // A decision is taken exactly on a point in play; it is the method's, and only a callback's failnum is
  // not the point's own.
  ghost predicate DecisionOk(s0: State, found: Option<Pid>, dec: Option<Decision>) {
    && (dec.Some? <==> found.Some? && found.value in s0.points && InPlay(s0.points[found.value]))
    && (dec.Some? ==> Proper(s0.points[found.value], dec.value))
  }

  predicate Proper(pt: Point, d: Decision) {
    (pt.decide.Always? ==> d.fails) && (!pt.decide.External? ==> d.failnum == pt.failnum)
  }

  function PointsAfter(s0: State, found: Option<Pid>, dec: Option<Decision>): map<Pid, Point> {
    if dec.Some? && found.Some? && found.value in s0.points
    then s0.points[found.value := AfterCall(s0.points[found.value], dec.value, |s0.calls|)]
    else s0.points
  }

  // An answer for the key, from now on without a walk.
  ghost predicate Cached(hash: HashFn, s0: State, name: string, cache: seq<Slot<Option<Pid>>>) {
    && cache != []
    && (s0.table.inited && name !in s0.table.finals ==> Hit(cache, hash, name) == Some(Answer(s0.table, name)))
  }

  // The one more call, at `pc`, holding the lock shared.
  function Reading(s0: State, t: Tid, name: string, pc: Pc, points: map<Pid, Point>,
                   cache: seq<Slot<Option<Pid>>>): State
    requires t in s0.threads
  {
    Calling(s0, t, name, pc, points, cache).(readers := s0.readers + {t})
  }

  function Calling(s0: State, t: Tid, name: string, pc: Pc, points: map<Pid, Point>,
                   cache: seq<Slot<Option<Pid>>>): State
    requires t in s0.threads
  {
    s0.(calls := s0.calls + [name], threads := s0.threads[t := Thread(pc, 1, 0, |s0.calls|, s0.threads[t].last)],
        points := points, table := s0.table.(cache := cache))
  }

  // What fiu_fail makes of the state: one more call and its record, and the point decided on.
  function Answered(s0: State, t: Tid, name: string, dec: Option<Decision>, cache: seq<Slot<Option<Pid>>>): State
    requires t in s0.threads
  {
    var found, id := Answer(s0.table, name), |s0.calls|;
    var table := s0.table.(cache := cache);
    s0.(calls := s0.calls + [name], threads := s0.threads[t := Thread(Idle, 0, 0, id, Result(dec))], table := table,
        points := PointsAfter(s0, found, dec),
        log := s0.log + [Record(id, name, found, Fires(dec), Result(dec), table)])
  }

  function Held(s0: State, t: Tid, p: Pid): Point
    requires p in s0.points
  {
    if s0.points[p].onetime then s0.points[p].(owner := Some(t)) else s0.points[p]
  }

  ghost predicate FoundInPlay(s0: State, name: string, p: Pid) {
    && Answer(s0.table, name) == Some(p) && p in s0.points && InPlay(s0.points[p])
    && (s0.points[p].onetime ==> s0.points[p].owner.None?)
  }

  // Where a fiu_fail can stand, once started, after the decision `dec`.
  ghost predicate Failing(hash: HashFn, s0: State, t: Tid, name: string, dec: Option<Decision>, s: State)
    requires t in s0.threads
  {
    var found, cache := Answer(s0.table, name), s.table.cache;
    t in s.threads && s.threads[t].nested == 0 && var pc := s.threads[t].pc; match pc
    case FailWant(n) => dec.None? && n == name && s == Calling(s0, t, name, pc, s0.points, s0.table.cache)
    case FailFinals(n) => dec.None? && n == name && s == Reading(s0, t, name, pc, s0.points, s0.table.cache)
    case FailCache(n) => Searches(s0, t, name, dec, n, pc, s)
    case FailWalk(n) => Searches(s0, t, name, dec, n, pc, s)
    case FailFill(n, f) => Searches(s0, t, name, dec, n, pc, s) && f == found
    case FailFound(n, f) => f == found && Resolves(hash, s0, t, name, dec, n, pc, s)
    case FailCheck(n, p) => Checks(hash, s0, t, name, dec, n, p, pc, s)
    case FailDecide(n, p) => Considers(hash, s0, t, name, dec, n, p, pc, s)
    case FailFire(n, p) => Fires(dec) && Decides(hash, s0, t, name, dec, n, p, pc, s)
    case FailPass(n, p) => !Fires(dec) && Decides(hash, s0, t, name, dec, n, p, pc, s)
    case FailOut(n, f, fired, result) =>
      f == found && fired == Fires(dec) && result == Result(dec) && Ends(hash, s0, t, name, dec, n, pc, s)
    case FailDone(r) =>
      r == Record(|s0.calls|, name, found, Fires(dec), Result(dec), s.table) && DecisionOk(s0, found, dec)
      && Cached(hash, s0, name, cache) && s == Calling(s0, t, name, pc, PointsAfter(s0, found, dec), cache)
    case Idle => DecisionOk(s0, found, dec) && Cached(hash, s0, name, cache) && s == Answered(s0, t, name, dec, cache)
    case _ => false
  }

  ghost predicate Searches(s0: State, t: Tid, name: string, dec: Option<Decision>, n: string, pc: Pc, s: State)
    requires t in s0.threads
  {
    && dec.None? && n == name && s0.table.inited && name !in s0.table.finals
    && s == Reading(s0, t, name, pc, s0.points, s0.table.cache)
  }

  ghost predicate Resolves(hash: HashFn, s0: State, t: Tid, name: string, dec: Option<Decision>, n: string, pc: Pc,
                           s: State)
    requires t in s0.threads
  {
    && dec.None? && n == name && Cached(hash, s0, name, s.table.cache)
    && s == Reading(s0, t, name, pc, s0.points, s.table.cache)
  }

  ghost predicate Checks(hash: HashFn, s0: State, t: Tid, name: string, dec: Option<Decision>, n: string, p: Pid,
                         pc: Pc, s: State)
    requires t in s0.threads
  {
    && dec.None? && n == name && Answer(s0.table, name) == Some(p) && p in s0.points && s0.points[p].onetime
    && s0.points[p].owner.None? && Cached(hash, s0, name, s.table.cache)
    && s == Reading(s0, t, name, pc, s0.points[p := Held(s0, t, p)], s.table.cache)
  }

  ghost predicate Considers(hash: HashFn, s0: State, t: Tid, name: string, dec: Option<Decision>, n: string, p: Pid,
                            pc: Pc, s: State)
    requires t in s0.threads
  {
    && dec.None? && n == name && FoundInPlay(s0, name, p) && Cached(hash, s0, name, s.table.cache)
    && s == Reading(s0, t, name, pc, s0.points[p := Held(s0, t, p)], s.table.cache)
  }

  ghost predicate Decides(hash: HashFn, s0: State, t: Tid, name: string, dec: Option<Decision>, n: string, p: Pid,
                          pc: Pc, s: State)
    requires t in s0.threads
  {
    && n == name && FoundInPlay(s0, name, p) && dec.Some? && Proper(s0.points[p], dec.value)
    && Cached(hash, s0, name, s.table.cache)
    && s == Reading(s0, t, name, pc, s0.points[p := DecidedOn(Held(s0, t, p), dec.value)], s.table.cache)
  }

  ghost predicate Ends(hash: HashFn, s0: State, t: Tid, name: string, dec: Option<Decision>, n: string, pc: Pc,
                       s: State)
    requires t in s0.threads
  {
    && n == name && DecisionOk(s0, Answer(s0.table, name), dec) && Cached(hash, s0, name, s.table.cache)
    && s == Reading(s0, t, name, pc, PointsAfter(s0, Answer(s0.table, name), dec), s.table.cache)
  }

  lemma FailTakes(hash: HashFn, s0: State, t: Tid, name: string, dec: Option<Decision>, s: State, a: Action)
    requires Outside(s0, t) && Failing(hash, s0, t, name, dec, s) && Enabled(s, t, a) && s.table.cache != []
    requires a.TakeRead?
    ensures Failing(hash, s0, t, name, dec, Apply(hash, s, t, a))
  {
    hide CacheMove, Lookup, Cached, DecisionOk, PointsAfter, Searches, Decides, FoundInPlay;
  }

  lemma UninitedAnswer(s0: State, name: string)
    requires Inv(s0) && !s0.table.inited
    ensures Answer(s0.table, name) == None
  {
    hide LocksOk, CountsOk, CacheOk, ThreadsOk, PendingDistinct, MutexOk, CallsOk, WinnersOk, Sound, Tracks, Named,
      Roomy, Lookup;
    NothingFound(s0.table, name);
  }

  lemma FailProbes(hash: HashFn, s0: State, t: Tid, name: string, dec: Option<Decision>, s: State, a: Action)
    requires Inv(s0) && Outside(s0, t) && Failing(hash, s0, t, name, dec, s) && Enabled(s, t, a) && s.table.cache != []
    requires a.ProbeFinals?
    ensures Failing(hash, s0, t, name, dec, Apply(hash, s, t, a))
  {
    hide Inv, FirstMatch, Hit, Decides, FoundInPlay, Enabled, Apply, CacheMove;
    Performs(hash, s, t, a);
    if !s0.table.inited {
      UninitedAnswer(s0, name);
    }
  }

  lemma FailLooks(hash: HashFn, s0: State, t: Tid, name: string, dec: Option<Decision>, s: State, a: Action)
    requires Outside(s0, t) && Failing(hash, s0, t, name, dec, s) && Enabled(s, t, a) && s.table.cache != []
    requires a.ProbeCache?
    requires Agrees(s0.table.cache, s0.table.ws)
    ensures Failing(hash, s0, t, name, dec, Apply(hash, s, t, a))
  {
    hide FirstMatch, Hit, Agrees, DecisionOk, PointsAfter, Decides, FoundInPlay, Enabled, Apply, CacheMove;
    Performs(hash, s, t, a);
    if Hit(s0.table.cache, hash, name).Some? {
      HitIsCurrent(s0.table, hash, name);
    }
  }

  lemma FailWalks(hash: HashFn, s0: State, t: Tid, name: string, dec: Option<Decision>, s: State, a: Action)
    requires Outside(s0, t) && Failing(hash, s0, t, name, dec, s) && Enabled(s, t, a) && s.table.cache != [] && a.Walk?
    ensures Failing(hash, s0, t, name, dec, Apply(hash, s, t, a))
  {
    hide FirstMatch, Hit, Cached, DecisionOk, PointsAfter, Decides, FoundInPlay, Enabled, Apply, CacheMove;
    Performs(hash, s, t, a);

  }

  lemma FailFills(hash: HashFn, s0: State, t: Tid, name: string, dec: Option<Decision>, s: State, a: Action)
    requires Outside(s0, t) && Failing(hash, s0, t, name, dec, s) && Enabled(s, t, a) && s.table.cache != [] && a.Fill?
    ensures Failing(hash, s0, t, name, dec, Apply(hash, s, t, a))
  {
    hide Lookup, Hit, Store, DecisionOk, PointsAfter, Decides, FoundInPlay, Enabled, Apply, CacheMove;
    Performs(hash, s, t, a);
    var found := Answer(s0.table, name);
    HitAfterStore(s.table.cache, hash, name, found, name);
    StoredThere(s.table.cache, hash, name, found);
  }

  lemma StoredThere(slots: seq<Slot<Option<Pid>>>, hash: HashFn, name: string, found: Option<Pid>)
    requires slots != []
    ensures Store(slots, hash, name, found) != []
  {
  }

  lemma SamePoint(points: map<Pid, Point>, p: Pid)
    requires p in points
    ensures points[p := points[p]] == points
  {
  }

  lemma Resolved(hash: HashFn, s0: State, t: Tid, name: string, s: State, found: Option<Pid>)
    requires Outside(s0, t) && t in s.threads && s.threads[t].pc == FailFound(name, found)
    requires found == Answer(s0.table, name)
    requires Resolves(hash, s0, t, name, None, name, s.threads[t].pc, s)
    requires found.Some? ==> found.value in s.points && Unheld(s.points[found.value])
    ensures Failing(hash, s0, t, name, None, DoResolve(s, t))
  {
    hide Lookup, Cached, Decides, Searches;
    if found.Some? {
      SamePoint(s0.points, found.value);
    }
  }

  lemma FailResolves(hash: HashFn, s0: State, t: Tid, name: string, dec: Option<Decision>, s: State, a: Action)
    requires Outside(s0, t) && Failing(hash, s0, t, name, dec, s) && Enabled(s, t, a) && s.table.cache != []
    requires a.Resolve?
    ensures Failing(hash, s0, t, name, dec, Apply(hash, s, t, a))
  {
    hide Enabled, Apply, CacheMove, DoResolve, Lookup, Reading, Calling, Cached, Outside;
    Performs(hash, s, t, a);
    Resolved(hash, s0, t, name, s, s.threads[t].pc.found);
  }

  lemma Checked(hash: HashFn, s0: State, t: Tid, name: string, s: State, p: Pid)
    requires Outside(s0, t) && t in s.threads && s.threads[t].pc == FailCheck(name, p) && p in s.points
    requires Checks(hash, s0, t, name, None, name, p, s.threads[t].pc, s)
    ensures if InPlay(s0.points[p]) then DoCheck(s, t) == Goto(s, t, FailDecide(name, p))
            else DoCheck(s, t) == Reading(s0, t, name, FailOut(name, Some(p), false, 0), s0.points, s.table.cache)
  {
    hide Lookup, Cached;
    SamePoint(s0.points, p);
    assert s.points[p := s0.points[p]] == s0.points[p := s0.points[p]];
  }

  lemma FailChecks(hash: HashFn, s0: State, t: Tid, name: string, dec: Option<Decision>, s: State, a: Action)
    requires Outside(s0, t) && Failing(hash, s0, t, name, dec, s) && Enabled(s, t, a) && s.table.cache != [] && a.Check?
    ensures Failing(hash, s0, t, name, dec, Apply(hash, s, t, a))
  {
    hide Enabled, Apply, CacheMove, DoCheck, Lookup, Cached;
    Performs(hash, s, t, a);
    Checked(hash, s0, t, name, s, s.threads[t].pc.p);
  }

  lemma Considered(hash: HashFn, s0: State, t: Tid, name: string, s: State, p: Pid, d: Decision)
    requires Outside(s0, t) && t in s.threads && s.threads[t].pc == FailDecide(name, p) && p in s.points
    requires Considers(hash, s0, t, name, None, name, p, s.threads[t].pc, s) && Proper(s.points[p], d)
    ensures var s' := DoDecide(s, t, d.fails, d.failnum);
            Decides(hash, s0, t, name, Some(d), name, p, if d.fails then FailFire(name, p) else FailPass(name, p), s')
  {
    hide Lookup, Cached;
    var after := DecidedOn(Held(s0, t, p), d);
    assert s0.points[p := Held(s0, t, p)][p := after] == s0.points[p := after];
  }

  lemma FailDecides(hash: HashFn, s0: State, t: Tid, name: string, dec: Option<Decision>, s: State, a: Action)
    requires Outside(s0, t) && Failing(hash, s0, t, name, dec, s) && Enabled(s, t, a) && s.table.cache != []
    requires a.Decide?
    ensures Failing(hash, s0, t, name, AfterStep(dec, a), Apply(hash, s, t, a))
  {
    hide Enabled, Apply, CacheMove, Decides, Lookup, Cached, FoundInPlay, Reading, Calling, Outside;
    Performs(hash, s, t, a);
    var d := Decision(a.fails, a.failnum);
    Considered(hash, s0, t, name, s, s.threads[t].pc.p, d);
  }

  lemma Fired(hash: HashFn, s0: State, t: Tid, name: string, dec: Option<Decision>, s: State, p: Pid)
    requires Outside(s0, t) && t in s.threads && s.threads[t].pc == FailFire(name, p) && p in s.points && Fires(dec)
    requires Decides(hash, s0, t, name, dec, name, p, s.threads[t].pc, s)
    ensures s.points[p].failnum == Result(dec)
    ensures Ends(hash, s0, t, name, dec, name, FailOut(name, Some(p), true, Result(dec)), DoFire(s, t))
  {
    hide Lookup, Cached;
    var after := AfterCall(s0.points[p], dec.value, |s0.calls|);
    assert s.points[p := after] == s0.points[p := after];
  }

  lemma Passed(hash: HashFn, s0: State, t: Tid, name: string, dec: Option<Decision>, s: State, p: Pid)
    requires Outside(s0, t) && t in s.threads && s.threads[t].pc == FailPass(name, p) && p in s.points && !Fires(dec)
    requires Decides(hash, s0, t, name, dec, name, p, s.threads[t].pc, s)
    ensures Ends(hash, s0, t, name, dec, name, FailOut(name, Some(p), false, 0), DoPass(s, t))
  {
    hide Lookup, Cached;
    var after := AfterCall(s0.points[p], dec.value, |s0.calls|);
    assert s.points[p := after] == s0.points[p := after];
  }

  lemma FailSettles(hash: HashFn, s0: State, t: Tid, name: string, dec: Option<Decision>, s: State, a: Action)
    requires Outside(s0, t) && Failing(hash, s0, t, name, dec, s) && Enabled(s, t, a) && s.table.cache != []
    requires (s.threads[t].pc.FailFire? && a.Fire?) || (s.threads[t].pc.FailPass? && a.Pass?)
    ensures Failing(hash, s0, t, name, dec, Apply(hash, s, t, a))
  {
    hide Enabled, Apply, CacheMove, Ends, Lookup, Cached, Reading, Calling, Outside, Proper;
    Performs(hash, s, t, a);
    if a.Fire? {
      Fired(hash, s0, t, name, dec, s, s.threads[t].pc.p);
    } else {
      Passed(hash, s0, t, name, dec, s, s.threads[t].pc.p);
    }
  }

  lemma FailReleases(hash: HashFn, s0: State, t: Tid, name: string, dec: Option<Decision>, s: State, a: Action)
    requires Outside(s0, t) && Failing(hash, s0, t, name, dec, s) && Enabled(s, t, a) && s.table.cache != []
    requires a.ReleaseRead?
    ensures Failing(hash, s0, t, name, dec, Apply(hash, s, t, a))
  {
    hide Lookup, Cached, Decides, Searches, DecisionOk, PointsAfter, Fires, Result, FoundInPlay, Enabled, Apply,
      CacheMove;
    Performs(hash, s, t, a);
    assert s0.readers + {t} - {t} == s0.readers;
  }

  lemma FailReturns(hash: HashFn, s0: State, t: Tid, name: string, dec: Option<Decision>, s: State, a: Action)
    requires Outside(s0, t) && Failing(hash, s0, t, name, dec, s) && Enabled(s, t, a) && s.table.cache != []
    requires a.Return?
    ensures Failing(hash, s0, t, name, dec, Apply(hash, s, t, a))
  {
    hide Lookup, Cached, Decides, Searches, DecisionOk, PointsAfter, Fires, Result, FoundInPlay, Enabled, Apply,
      CacheMove;
    Performs(hash, s, t, a);

  }

  lemma FailingStep(hash: HashFn, s0: State, t: Tid, name: string, dec: Option<Decision>, s: State, a: Action)
    requires Inv(s0) && Outside(s0, t) && Failing(hash, s0, t, name, dec, s) && s.table.cache != []
    requires Enabled(s, t, a) && !Starts(a)
    ensures Failing(hash, s0, t, name, AfterStep(dec, a), Apply(hash, s, t, a))
  {
    hide Inv, Enabled, Apply, Starts, Outside, Searches, Resolves, Checks, Considers, Decides, Ends, Cached,
      DecisionOk, PointsAfter, Calling, Reading, Answered, Lookup, Agrees;
    OnlyStep(s, t, a);
    match s.threads[t].pc {
      case FailWant(_) => FailTakes(hash, s0, t, name, dec, s, a);
      case FailFinals(_) => FailProbes(hash, s0, t, name, dec, s, a);
      case FailCache(_) =>
        CurrentCache(s0, t);
        FailLooks(hash, s0, t, name, dec, s, a);
      case FailWalk(_) => FailWalks(hash, s0, t, name, dec, s, a);
      case FailFill(_, _) => FailFills(hash, s0, t, name, dec, s, a);
      case FailFound(_, _) => FailResolves(hash, s0, t, name, dec, s, a);
      case FailCheck(_, _) => FailChecks(hash, s0, t, name, dec, s, a);
      case FailDecide(_, _) => FailDecides(hash, s0, t, name, dec, s, a);
      case FailFire(_, _) => FailSettles(hash, s0, t, name, dec, s, a);
      case FailPass(_, _) => FailSettles(hash, s0, t, name, dec, s, a);
      case FailOut(_, _, _, _) => FailReleases(hash, s0, t, name, dec, s, a);
      case FailDone(_) => FailReturns(hash, s0, t, name, dec, s, a);
    }
  }

  lemma CurrentCache(s: State, t: Tid)
    requires Inv(s) && Outside(s, t)
    ensures Agrees(s.table.cache, s.table.ws)
  {
    hide LocksOk, CountsOk, TableOk, ThreadsOk, PendingDistinct, MutexOk, CallsOk, WinnersOk, Agrees, NothingLive;
  }

  lemma {:induction false} FailingRuns(hash: HashFn, s0: State, t: Tid, name: string, dec: Option<Decision>, s: State,
                                       acts: seq<Action>)
    requires Inv(s0) && Outside(s0, t) && Failing(hash, s0, t, name, dec, s)
    requires Perform(hash, s, t, acts).Some? && forall i :: 0 <= i < |acts| ==> !Starts(acts[i])
    ensures Failing(hash, s0, t, name, Decided(dec, acts), Perform(hash, s, t, acts).value)
    decreases |acts|
  {
    hide Inv, Enabled, Apply, Starts, Failing, Outside, AfterStep;
    if acts != [] {
      FailingStep(hash, s0, t, name, dec, s, acts[0]);
      FailingRuns(hash, s0, t, name, AfterStep(dec, acts[0]), Apply(hash, s, t, acts[0]), acts[1..]);
    }
  }

  lemma FailStarts(hash: HashFn, s: State, t: Tid, name: string)
    requires Outside(s, t) && Enabled(s, t, Call(name))
    ensures Failing(hash, s, t, name, None, Apply(hash, s, t, Call(name)))
  {
    hide CacheMove, Lookup;
  }

  // fiu_fail on its own, with other readers about, before or after fiu_init: every run of it to its end
  // finds what the exact names and the patterns say, decides exactly if the point is in play, returns the
  // failnum exactly if the decision was to fail, leaves the answer in the cache, and nothing else.
  lemma FailAlone(hash: HashFn, s: State, t: Tid, name: string, acts: seq<Action>, s': State)
    requires Inv(s) && Outside(s, t) && OneCall(acts, Call(name))
    requires Perform(hash, s, t, acts) == Some(s') && t in s'.threads && s'.threads[t].pc.Idle?
    ensures var dec := Decided(None, acts);
            && s' == Answered(s, t, name, dec, s'.table.cache)
            && DecisionOk(s, Answer(s.table, name), dec) && Cached(hash, s, name, s'.table.cache)
  {
    hide Inv, Outside, Enabled, Apply, Starts, Lookup, DecisionOk, Cached, Answered;
    FailStarts(hash, s, t, name);
    FailingRuns(hash, s, t, name, None, Apply(hash, s, t, acts[0]), acts[1..]);
    assert AfterStep(None, acts[0]) == None;
  }
}
