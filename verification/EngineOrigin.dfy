// Where the state of a run comes from: the table from an initialising section, every point from one enabling
// call, and so at most as many failures as there were ONETIME enablings.
module EngineOrigins {
  import opened Slots
  import opened Caches
  import opened Wildcards
  import opened WTables
  import opened Engine
  import opened EngineInvariants
  import opened EngineRuns

  // ---- one step ----

  // What never changes about a point; and only an external callback can have changed its failnum.
  predicate SamePoint(a: Point, b: Point) {
    && b.name == a.name && b.decide == a.decide && b.onetime == a.onetime
    && a.stored <= b.stored && (!a.decide.External? ==> b.failnum == a.failnum)
  }

  ghost predicate PointsFollow(s: State, s': State) {
    s'.points.Keys == s.points.Keys && forall p :: p in s.points ==> SamePoint(s.points[p], s'.points[p])
  }

  // Everything but pf_create and the first write of fiu_init.
  ghost predicate Ordinary(s: State, s': State, t: Tid, a: Action) {
    && OneMoves(s, s', t) && s'.table.inited == s.table.inited && PointsFollow(s, s')
    && (a.StartEnable? ==> !s.threads[t].pc.EnableCreate?
                           && s'.threads[t].pc == EnableCreate(a.name, a.decide, a.onetime, a.failnum))
    && (!a.StartEnable? ==> (s'.threads[t].pc.EnableCreate? <==> s.threads[t].pc.EnableCreate?)
                            && (s.threads[t].pc.EnableCreate? ==> s'.threads[t].pc == s.threads[t].pc))
  }

  lemma DecisionOrigin(hash: HashFn, s: State, t: Tid, a: Action)
    requires Enabled(s, t, a) && s.table.cache != [] && AfterLookup(a) && !a.ReleaseRead? && !a.Return?
    ensures Ordinary(s, Apply(hash, s, t, a), t, a)
  {
    hide DoWriteStep, DoCreate, DoCall, DoUnnest, DoProbeFinals, DoProbeCache, DoWalk, DoFill, DoReleaseRead, DoReturn,
      Enabled, Apply, CacheMove;
    Performs(hash, s, t, a);
  }

  lemma ReturnOrigin(hash: HashFn, s: State, t: Tid, a: Action)
    requires Enabled(s, t, a) && s.table.cache != [] && (a.ReleaseRead? || a.Return?)
    ensures Ordinary(s, Apply(hash, s, t, a), t, a)
  {
    hide DoWriteStep, DoCreate, DoCall, DoUnnest, DoProbeFinals, DoProbeCache, DoWalk, DoFill, DoResolve, DoCheck,
      DoDecide, DoFire, DoPass, Enabled, Apply, CacheMove;
    Performs(hash, s, t, a);
  }

  lemma QuietOrigin(hash: HashFn, s: State, t: Tid, a: Action)
    requires Enabled(s, t, a) && s.table.cache != [] && t in s.threads && CountOk(s.threads[t])
    requires !a.WriteStep? && !a.Create? && !AfterLookup(a)
    ensures Ordinary(s, Apply(hash, s, t, a), t, a)
  {
    hide Hit, Store, FirstMatch, CacheMove, DoWriteStep, DoResolve, DoCheck, DoDecide, DoFire, DoPass, DoReleaseRead,
      DoReturn, NewPoint, DoCreate;
  }

  lemma SetOrigin(s: State, t: Tid, p: Pid, newCache: seq<Slot<Option<Pid>>>, a: Action)
    requires t in s.threads && s.threads[t].pc == WriteIn(SetOp(p)) && p in s.points && a.WriteStep?
    ensures Ordinary(s, DoSet(s, t, p, newCache), t, a)
  {
    hide Grown, IsWildcard;
  }

  lemma PutOrigin(s: State, t: Tid, p: Pid, a: Action)
    requires t in s.threads && s.threads[t].pc == SetCleared(p) && p in s.points && a.WriteStep?
    ensures Ordinary(s, DoPut(s, t, p), t, a)
  {
    hide Put, IndexOf;
  }

  lemma DelOrigin(s: State, t: Tid, name: string, a: Action)
    requires t in s.threads && s.threads[t].pc == WriteIn(DelOp(name)) && a.WriteStep?
    ensures Ordinary(s, DoDel(s, t, name), t, a)
  {
    hide IndexOf, IsWildcard;
  }

  predicate Initialises(s: State, t: Tid, a: Action) {
    a.WriteStep? && t in s.threads && s.threads[t].pc == WriteIn(InitOp)
  }

  lemma WriteOrigin(hash: HashFn, s: State, t: Tid, a: Action)
    requires Enabled(s, t, a) && s.table.cache != [] && a.WriteStep? && !Initialises(s, t, a)
    ensures Ordinary(s, Apply(hash, s, t, a), t, a)
  {
    hide Shrunk, Invalidated, DoSet, DoPut, DoDel, Enabled, Apply, CacheMove;
    Performs(hash, s, t, a);
    match s.threads[t].pc {
      case WriteIn(SetOp(p)) => SetOrigin(s, t, p, a.newCache, a);
      case WriteIn(DelOp(name)) => DelOrigin(s, t, name, a);
      case SetCleared(p) => PutOrigin(s, t, p, a);
      case _ =>
    }
  }

  lemma StepOrigin(hash: HashFn, s: State, t: Tid, a: Action)
    requires Inv(s) && Enabled(s, t, a) && s.table.cache != [] && !a.Create? && !Initialises(s, t, a)
    ensures Ordinary(s, Apply(hash, s, t, a), t, a)
  {
    hide Inv, Apply, CacheMove, Ordinary, CountOk, PcOk;
    if a.WriteStep? {
      WriteOrigin(hash, s, t, a);
    } else if a.ReleaseRead? || a.Return? {
      ReturnOrigin(hash, s, t, a);
    } else if AfterLookup(a) {
      DecisionOrigin(hash, s, t, a);
    } else {
      OwnPart(s, t);
      QuietOrigin(hash, s, t, a);
    }
  }

  lemma InitialisesOrigin(hash: HashFn, s: State, t: Tid, a: Action)
    requires Enabled(s, t, a) && s.table.cache != [] && Initialises(s, t, a)
    ensures var s' := Apply(hash, s, t, a);
            OneMoves(s, s', t) && s'.table.inited && s'.points == s.points && !s'.threads[t].pc.EnableCreate?
  {
    hide CacheMove, DoSet, DoPut, DoDel;
  }

  // pf_create gives the point the name, method, flag and failnum its caller passed, field by field.
  lemma CreateOrigin(hash: HashFn, s: State, t: Tid, p: Pid)
    requires Enabled(s, t, Create(p)) && s.table.cache != []
    ensures t in s.threads && s.threads[t].pc.EnableCreate?
    ensures var s', pc := Apply(hash, s, t, Create(p)), s.threads[t].pc;
            && OneMoves(s, s', t) && s'.table.inited == s.table.inited && s'.threads[t].pc == EnableReady(p)
            && p !in s.points && p in s'.points && s'.points == s.points[p := s'.points[p]]
            && s'.points[p].name == pc.name && s'.points[p].decide == pc.decide && s'.points[p].onetime == pc.onetime
            && s'.points[p].failnum == pc.failnum && s'.points[p].stored == {pc.failnum}
            && !s'.points[p].failedOnce && s'.points[p].owner.None? && !s'.points[p].freed
  {
    hide CacheMove;
  }

  // ---- the table is there once some thread has initialised it ----

  // Some thread has done the write of an fiu_init: it is past it inside the section, or has left it.
  ghost predicate InitialisedBy(states: seq<State>, events: seq<Event>, m: nat)
    requires |states| == |events| + 1
  {
    exists n :: 0 <= n < m && n < |events| && Initialises(states[n], events[n].t, events[n].a)
  }

  lemma {:induction false} TableComesFromInit(hash: HashFn, states: seq<State>, events: seq<Event>, m: nat)
    requires Steps(hash, states, events) && Initial(states[0]) && m <= |events|
    ensures Inv(states[m])
    ensures states[m].table.inited <==> InitialisedBy(states, events, m)
    decreases m
  {
    hide Inv, Enabled, Apply, Initialises;
    if m == 0 {
      InitialHolds(states[0]);
    } else {
      hide Initial;
      TableComesFromInit(hash, states, events, m - 1);
      var s, t, a := states[m - 1], events[m - 1].t, events[m - 1].a;
      assert Next(hash, s, events[m - 1], states[m]);
      Step(hash, s, t, a);
      InitedNext(hash, s, t, a);
      if InitialisedBy(states, events, m - 1) {
        var n :| 0 <= n < m - 1 && n < |events| && Initialises(states[n], events[n].t, events[n].a);
        assert n < m && Initialises(states[n], events[n].t, events[n].a);
      }
    }
  }

  lemma InitedNext(hash: HashFn, s: State, t: Tid, a: Action)
    requires Inv(s) && Enabled(s, t, a) && s.table.cache != []
    ensures Apply(hash, s, t, a).table.inited <==> s.table.inited || Initialises(s, t, a)
  {
    hide Inv, Enabled, Apply, Initialises, PointsFollow;
    if Initialises(s, t, a) {
      InitialisesOrigin(hash, s, t, a);
    } else if a.Create? {
      CreateOrigin(hash, s, t, a.p);
      NoInit(s, t, a);
    } else {
      StepOrigin(hash, s, t, a);
    }
  }

  lemma NoInit(s: State, t: Tid, a: Action)
    requires a.Create?
    ensures !Initialises(s, t, a)
  {
  }

  // ---- every point comes from one enabling call ----

  // The point is what this enabling asked for.
  predicate Asks(a: Action, pt: Point) {
    && a.StartEnable? && pt.name == a.name && pt.decide == a.decide && pt.onetime == a.onetime
    && a.failnum in pt.stored && (!a.decide.External? ==> pt.failnum == a.failnum)
  }

  ghost predicate AskedFor(events: seq<Event>, m: nat, pt: Point) {
    exists n :: 0 <= n < m && n < |events| && Asks(events[n].a, pt)
  }

  ghost predicate Asking(events: seq<Event>, m: nat, t: Tid, pc: Pc) {
    pc.EnableCreate? ==>
      exists n :: 0 <= n < m && n < |events|
                  && events[n] == Event(t, StartEnable(pc.name, pc.decide, pc.onetime, pc.failnum))
  }

  ghost predicate AllAskedFor(events: seq<Event>, m: nat, s: State) {
    && (forall p :: p in s.points ==> AskedFor(events, m, s.points[p]))
    && (forall t :: t in s.threads ==> Asking(events, m, t, s.threads[t].pc))
  }

  lemma AskedLater(events: seq<Event>, m: nat, a: Point, b: Point)
    requires AskedFor(events, m, a) && SamePoint(a, b)
    ensures AskedFor(events, m + 1, b)
  {
    var n :| 0 <= n < m && n < |events| && Asks(events[n].a, a);
    assert n < m + 1 && Asks(events[n].a, b);
  }

  lemma AskingLater(events: seq<Event>, m: nat, t: Tid, pc: Pc)
    requires Asking(events, m, t, pc)
    ensures Asking(events, m + 1, t, pc)
  {
    if pc.EnableCreate? {
      var n :| 0 <= n < m && n < |events|
               && events[n] == Event(t, StartEnable(pc.name, pc.decide, pc.onetime, pc.failnum));
      assert n < m + 1;
    }
  }

  lemma CreatedWasAsked(events: seq<Event>, m: nat, t: Tid, pc: Pc, pt: Point)
    requires Asking(events, m, t, pc) && pc.EnableCreate? && pt.name == pc.name && pt.decide == pc.decide
    requires pt.onetime == pc.onetime && pt.failnum == pc.failnum && pt.stored == {pc.failnum}
    ensures AskedFor(events, m + 1, pt)
  {
    var n :| 0 <= n < m && n < |events|
             && events[n] == Event(t, StartEnable(pc.name, pc.decide, pc.onetime, pc.failnum));
    assert n < m + 1 && Asks(events[n].a, pt);
  }

  // The threads that did not move, and the one that did.
  lemma AskingNext(events: seq<Event>, m: nat, s: State, s': State, t: Tid)
    requires OneMoves(s, s', t) && forall u :: u in s.threads ==> Asking(events, m, u, s.threads[u].pc)
    requires Asking(events, m + 1, t, s'.threads[t].pc)
    ensures forall u :: u in s'.threads ==> Asking(events, m + 1, u, s'.threads[u].pc)
  {
    hide Asking;
    forall u | u in s'.threads ensures Asking(events, m + 1, u, s'.threads[u].pc) {
      if u != t {
        AskingLater(events, m, u, s.threads[u].pc);
      }
    }
  }

  lemma OrdinaryAsked(events: seq<Event>, m: nat, s: State, s': State)
    requires m < |events| && AllAskedFor(events, m, s)
    requires Ordinary(s, s', events[m].t, events[m].a)
    ensures AllAskedFor(events, m + 1, s')
  {
    hide AskedFor, SamePoint;
    var t, a := events[m].t, events[m].a;
    forall p | p in s'.points ensures AskedFor(events, m + 1, s'.points[p]) {
      AskedLater(events, m, s.points[p], s'.points[p]);
    }
    assert Asking(events, m, t, s.threads[t].pc);
    if a.StartEnable? {
      assert events[m] == Event(t, StartEnable(a.name, a.decide, a.onetime, a.failnum));
    } else {
      AskingLater(events, m, t, s.threads[t].pc);
    }
    AskingNext(events, m, s, s', t);
  }

  lemma CreateAsked(hash: HashFn, events: seq<Event>, m: nat, s: State)
    requires m < |events| && AllAskedFor(events, m, s) && events[m].a.Create?
    requires Enabled(s, events[m].t, events[m].a) && s.table.cache != []
    ensures AllAskedFor(events, m + 1, Apply(hash, s, events[m].t, events[m].a))
  {
    hide AskedFor, Asking, Enabled, Apply;
    var t, p := events[m].t, events[m].a.p;
    var s' := Apply(hash, s, t, Create(p));
    CreateOrigin(hash, s, t, p);
    CreatedWasAsked(events, m, t, s.threads[t].pc, s'.points[p]);
    forall q | q in s'.points ensures AskedFor(events, m + 1, s'.points[q]) {
      if q != p {
        AskedLater(events, m, s.points[q], s'.points[q]);
      }
    }
    NotAsking(events, m + 1, t, s'.threads[t].pc);
    AskingNext(events, m, s, s', t);
  }

  lemma NotAsking(events: seq<Event>, m: nat, t: Tid, pc: Pc)
    requires !pc.EnableCreate?
    ensures Asking(events, m, t, pc)
  {
  }

  lemma SamePoints(events: seq<Event>, m: nat, s: State, s': State, t: Tid)
    requires AllAskedFor(events, m, s) && OneMoves(s, s', t) && s'.points == s.points
    requires !s'.threads[t].pc.EnableCreate?
    ensures AllAskedFor(events, m + 1, s')
  {
    hide AskedFor, Asking;
    forall p | p in s'.points ensures AskedFor(events, m + 1, s'.points[p]) {
      AskedLater(events, m, s.points[p], s'.points[p]);
    }
    NotAsking(events, m + 1, t, s'.threads[t].pc);
    AskingNext(events, m, s, s', t);
  }

  // Every point of a run has the name, the method, the flag and, unless a callback changed it, the failnum
  // of an enabling call of that run.
  lemma {:induction false} PointsComeFromEnables(hash: HashFn, states: seq<State>, events: seq<Event>, m: nat)
    requires Steps(hash, states, events) && Initial(states[0]) && m <= |events|
    ensures Inv(states[m]) && AllAskedFor(events, m, states[m])
    decreases m
  {
    hide Inv, Enabled, Apply;
    if m == 0 {
      InitialHolds(states[0]);
    } else {
      hide Initial, AllAskedFor, Initialises, Ordinary;
      PointsComeFromEnables(hash, states, events, m - 1);
      var s, t, a := states[m - 1], events[m - 1].t, events[m - 1].a;
      assert Next(hash, s, events[m - 1], states[m]);
      Step(hash, s, t, a);
      if Initialises(s, t, a) {
        InitialisesOrigin(hash, s, t, a);
        SamePoints(events, m - 1, s, states[m], t);
      } else if a.Create? {
        CreateAsked(hash, events, m - 1, s);
      } else {
        StepOrigin(hash, s, t, a);
        OrdinaryAsked(events, m - 1, s, states[m]);
      }
    }
  }

  // ---- no more points than enabling calls, no more ONETIME failures than points ----

  function Enables(events: seq<Event>): nat {
    if events == [] then 0 else Enables(events[..|events| - 1]) + if events[|events| - 1].a.StartEnable? then 1 else 0
  }

  // The threads between the start of an enabling call and its point.
  ghost function Creators(s: State): set<Tid> {
    set t | t in s.threads && s.threads[t].pc.EnableCreate?
  }

  lemma OrdinaryCount(s: State, s': State, t: Tid, a: Action)
    requires Ordinary(s, s', t, a)
    ensures |s'.points.Keys| == |s.points.Keys|
    ensures |Creators(s')| == |Creators(s)| + if a.StartEnable? then 1 else 0
  {
    if a.StartEnable? {
      assert Creators(s') == Creators(s) + {t};
    } else {
      assert Creators(s') == Creators(s);
    }
  }

  lemma CreateCount(hash: HashFn, s: State, t: Tid, p: Pid)
    requires Enabled(s, t, Create(p)) && s.table.cache != []
    ensures var s' := Apply(hash, s, t, Create(p));
            |s'.points.Keys| == |s.points.Keys| + 1 && |Creators(s')| + 1 == |Creators(s)|
  {
    hide Enabled, Apply;
    var s' := Apply(hash, s, t, Create(p));
    CreateOrigin(hash, s, t, p);
    assert s'.points.Keys == s.points.Keys + {p};
    assert Creators(s) == Creators(s') + {t};
  }

  lemma InitialisesCount(hash: HashFn, s: State, t: Tid, a: Action)
    requires Enabled(s, t, a) && s.table.cache != [] && Initialises(s, t, a)
    ensures var s' := Apply(hash, s, t, a);
            |s'.points.Keys| == |s.points.Keys| && |Creators(s')| == |Creators(s)| && !a.StartEnable? && !a.Create?
  {
    hide Enabled, Apply;
    InitialisesOrigin(hash, s, t, a);
    assert Creators(Apply(hash, s, t, a)) == Creators(s);
  }

  // Every enabling call makes one point: those that have started and not made theirs yet are accounted for.
  lemma {:induction false} OnePointPerEnable(hash: HashFn, states: seq<State>, events: seq<Event>)
    requires Steps(hash, states, events) && Initial(states[0])
    ensures |states[|events|].points.Keys| + |Creators(states[|events|])| == Enables(events)
  {
    if events == [] {
      assert Creators(states[0]) == {};
    } else {
      hide Enabled, Apply, Initial, Creators, Initialises, Ordinary, Inv;
      var n := |events| - 1;
      var s, t, a := states[n], events[n].t, events[n].a;
      OnePointPerEnable(hash, states[..n + 1], events[..n]);
      PartOfRun(hash, states, events, n);
      assert Next(hash, s, events[n], states[n + 1]);
      if Initialises(s, t, a) {
        InitialisesCount(hash, s, t, a);
      } else if a.Create? {
        CreateCount(hash, s, t, a.p);
      } else {
        StepOrigin(hash, s, t, a);
        OrdinaryCount(s, states[n + 1], t, a);
      }
    }
  }

  // The completed calls that failed.
  ghost function Failures(log: seq<Record>): set<nat> {
    set i: nat | i < |log| && log[i].fired
  }

  ghost predicate FailedApart(log: seq<Record>, points: map<Pid, Point>) {
    && (forall i :: 0 <= i < |log| && log[i].fired ==> log[i].found.Some? && log[i].found.value in points)
    && (forall i, j :: 0 <= i < j < |log| && log[i].fired && log[j].fired ==> log[i].found != log[j].found)
  }

  ghost function FailedPoints(log: seq<Record>): set<Pid> {
    if log == [] then {}
    else
      var r := log[|log| - 1];
      FailedPoints(log[..|log| - 1]) + if r.fired && r.found.Some? then {r.found.value} else {}
  }

  lemma {:induction false} FailedPointsFrom(log: seq<Record>, p: Pid) returns (i: nat)
    requires p in FailedPoints(log)
    ensures i < |log| && log[i].fired && log[i].found == Some(p)
  {
    var n := |log| - 1;
    if p in FailedPoints(log[..n]) {
      i := FailedPointsFrom(log[..n], p);
    } else {
      i := n;
    }
  }

  lemma FailuresGrow(log: seq<Record>)
    requires log != []
    ensures var n := |log| - 1;
            n !in Failures(log[..n]) && Failures(log) == Failures(log[..n]) + if log[n].fired then {n} else {}
  {
  }

  // Failures on points of their own are as many as those points.
  lemma {:induction false} FailuresFit(log: seq<Record>, points: map<Pid, Point>)
    requires FailedApart(log, points)
    ensures |Failures(log)| == |FailedPoints(log)| && FailedPoints(log) <= points.Keys
    decreases |log|
  {
    hide Failures;
    if log == [] {
      NoFailures();
    } else {
      var n := |log| - 1;
      FailuresGrow(log);
      FailuresFit(log[..n], points);
      if log[n].fired && log[n].found.value in FailedPoints(log[..n]) {
        var i := FailedPointsFrom(log[..n], log[n].found.value);
        assert false;
      }
    }
  }

  lemma NoFailures()
    ensures Failures([]) == {}
  {
  }

  lemma SmallerSet<T>(a: set<T>, b: set<T>)
    requires a <= b
    ensures |a| <= |b|
  {
    assert b == a + (b - a);
  }

  // When every enabling of a run is ONETIME, the failures of the whole run, through any names and in any
  // interleaving, are no more than its enabling calls.
  lemma NoMoreFailuresThanEnables(hash: HashFn, states: seq<State>, events: seq<Event>)
    requires Steps(hash, states, events) && Initial(states[0])
    requires forall n :: 0 <= n < |events| && events[n].a.StartEnable? ==> events[n].a.onetime
    ensures |Failures(states[|events|].log)| <= Enables(events)
  {
    hide Inv, Initial, Next, Enables, Creators, Failures, FailedApart, OutcomeOk, FailedPoints;
    var s := states[|events|];
    PointsComeFromEnables(hash, states, events, |events|);
    OnePointPerEnable(hash, states, events);
    assert Reachable(hash, s);
    AllOneTime(hash, s, events);
    FailuresFit(s.log, s.points);
    SmallerSet(FailedPoints(s.log), s.points.Keys);
  }

  lemma AllOneTime(hash: HashFn, s: State, events: seq<Event>)
    requires Reachable(hash, s) && AllAskedFor(events, |events|, s)
    requires forall n :: 0 <= n < |events| && events[n].a.StartEnable? ==> events[n].a.onetime
    ensures FailedApart(s.log, s.points)
  {
    hide Reachable;
    forall i | 0 <= i < |s.log| && s.log[i].fired ensures s.log[i].found.Some? && s.log[i].found.value in s.points {
      CompletedCall(hash, s, i);
    }
    forall i, j | 0 <= i < j < |s.log| && s.log[i].fired && s.log[j].fired ensures s.log[i].found != s.log[j].found {
      if s.log[i].found == s.log[j].found {
        var p := s.log[i].found.value;
        assert AskedFor(events, |events|, s.points[p]);
        OneTimeFailsOnce(hash, s, p, i, j);
      }
    }
  }
}
