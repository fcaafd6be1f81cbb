// The failure engine of libfiu/fiu.c as interleaved steps of threads: fiu_fail under the shared
// lock, with the cache filled by readers; enabling, disabling and initialising under the exclusive
// lock; a mutex per ONETIME point; and the thread-local recursion count.
module Engine {
  import opened Slots
  import opened Caches
  import opened Wildcards
  import opened WTables
  import HashRuns

  type Tid = nat
  type Pid = nat  // a struct pf_info, by address; addresses are never reused here

  datatype Method = Always | Prob | External | Stack

  // struct pf_info. The last three are history: every failnum it has had, the fiu_fail call that failed
  // on it, and whether it has been destroyed.
  datatype Point = Point(name: string, decide: Method, onetime: bool, failnum: int, owner: Option<Tid>,
                         failedOnce: bool, stored: set<int>, winner: Option<nat>, freed: bool)

  function NewPoint(name: string, decide: Method, onetime: bool, failnum: int): Point {
    Point(name, decide, onetime, failnum, None, false, {failnum}, None, false)
  }

  datatype Op = InitOp | SetOp(p: Pid) | DelOp(name: string)

  // enabled_fails, as the wildcard table's parts. The last two are history: the sets and deletes that
  // took effect, in order, and the point of every name set and not deleted since.
  datatype Table = Table(inited: bool, finals: map<string, Pid>, ws: seq<WEntry<Pid>>, cache: seq<Slot<Option<Pid>>>,
                         ops: seq<HashRuns.Op<Pid>>, enabled: map<string, Pid>)

  // A completed call of fiu_fail, with the table it was answered from.
  datatype Record = Record(id: nat, name: string, found: Option<Pid>, fired: bool, result: int, table: Table)

  // Where a thread stands. FailFinals to FailOut hold the lock shared, WriteIn to WriteOut hold it
  // exclusively; FailCheck, and for a ONETIME point FailDecide to FailPass, hold the point's mutex.
  datatype Pc =
    | Idle
    | FailWant(name: string)
    | FailFinals(name: string)
    | FailCache(name: string)
    | FailWalk(name: string)
    | FailFill(name: string, found: Option<Pid>)
    | FailFound(name: string, found: Option<Pid>)
    | FailCheck(name: string, p: Pid)
    | FailDecide(name: string, p: Pid)
    | FailFire(name: string, p: Pid)
    | FailPass(name: string, p: Pid)
    | FailOut(name: string, found: Option<Pid>, fired: bool, result: int)
    | FailDone(record: Record)
    | EnableCreate(name: string, decide: Method, onetime: bool, failnum: int)
    | EnableReady(p: Pid)
    | WriteWant(op: Op)
    | WriteIn(op: Op)
    | SetGrown(p: Pid)
    | SetCleared(p: Pid)
    | DelFreed
    | DelShrunk
    | WriteOut
    | WriteDone

  // `rec` is rec_count; `nested` counts the fiu_fail calls in progress inside the outermost one, and
  // `call` numbers that one. `last` is what the last fiu_fail to end on this thread returned.
  datatype Thread = Thread(pc: Pc, rec: nat, nested: nat, call: nat, last: int)

  datatype State = State(
    table: Table,
    points: map<Pid, Point>,
    readers: set<Tid>,
    writer: Option<Tid>,
    threads: map<Tid, Thread>,
    calls: seq<string>,  // the name each outermost fiu_fail asked for
    log: seq<Record>)

  datatype Action =
    | Call(name: string) | Unnest
    | TakeRead | ProbeFinals | ProbeCache | Walk | Fill
    | Resolve | Check | Decide(fails: bool, failnum: int) | Fire | Pass
    | ReleaseRead | Return
    | StartEnable(name: string, decide: Method, onetime: bool, failnum: int)
    | Create(p: Pid) | Insert
    | StartDisable(name: string) | StartInit
    | TakeWrite | WriteStep(newCache: seq<Slot<Option<Pid>>>) | ReleaseWrite | Finish

  // The steps of fiu_fail once wtable_get has answered.
  predicate AfterLookup(a: Action) {
    a.Resolve? || a.Check? || a.Decide? || a.Fire? || a.Pass? || a.ReleaseRead? || a.Return?
  }

  predicate HoldsRead(pc: Pc) {
    pc.FailFinals? || pc.FailCache? || pc.FailWalk? || pc.FailFill? || pc.FailFound? || pc.FailCheck?
    || pc.FailDecide? || pc.FailFire? || pc.FailPass? || pc.FailOut?
  }

  predicate HoldsWrite(pc: Pc) {
    pc.WriteIn? || pc.SetGrown? || pc.SetCleared? || pc.DelFreed? || pc.DelShrunk? || pc.WriteOut?
  }

  predicate InFail(pc: Pc) {
    HoldsRead(pc) || pc.FailWant? || pc.FailDone?
  }

  // Inside fiu_fail, pf_create, insert_pf, fiu_disable or fiu_init.
  predicate Inside(pc: Pc) {
    !pc.Idle? && !pc.EnableReady?
  }

  // The created point a thread has not put into the table yet.
  function Pending(pc: Pc): Option<Pid> {
    match pc
    case EnableReady(p) => Some(p)
    case WriteWant(SetOp(p)) => Some(p)
    case WriteIn(SetOp(p)) => Some(p)
    case SetGrown(p) => Some(p)
    case SetCleared(p) => Some(p)
    case _ => None
  }

  function Goto(s: State, t: Tid, pc: Pc): State
    requires t in s.threads
  {
    s.(threads := s.threads[t := s.threads[t].(pc := pc)])
  }

  // rec_count++ or rec_count-- together with a move.
  function GotoRec(s: State, t: Tid, pc: Pc, rec: nat): State
    requires t in s.threads
  {
    s.(threads := s.threads[t := s.threads[t].(pc := pc, rec := rec)])
  }

  function SetTable(s: State, table: Table): State {
    s.(table := table)
  }

  function SetPoint(s: State, p: Pid, pt: Point): State {
    s.(points := s.points[p := pt])
  }

  // pf_free, as the table's destructor.
  function Destroy(points: map<Pid, Point>, p: Pid): map<Pid, Point> {
    if p in points then points[p := points[p].(freed := true)] else points
  }

  predicate Resizes(ws: seq<WEntry<Pid>>, pc: Pc, points: map<Pid, Point>) {
    match pc
    case WriteIn(SetOp(p)) => p in points && IsWildcard(points[p].name) && |ws| - |Live(ws)| <= 1
    case DelFreed => Shrinks(|ws|, |Live(ws)|)
    case _ => false
  }

  // What cache_resize may do: keep some of the entries, anywhere, or none.
  ghost predicate CacheMove(s: State, pc: Pc, newCache: seq<Slot<Option<Pid>>>) {
    if Resizes(s.table.ws, pc, s.points) then newCache != [] && Subsumed(s.table.cache, newCache)
    else newCache == s.table.cache
  }

  // A point without a mutex, or whose mutex nobody holds.
  predicate Unheld(pt: Point) {
    pt.onetime ==> pt.owner.None?
  }

  ghost predicate Enabled(s: State, t: Tid, a: Action) {
    && t in s.threads
    && var th := s.threads[t];
    match a
    case Call(_) => !th.pc.EnableReady?
    case Unnest => th.nested > 0
    case TakeRead => th.nested == 0 && th.pc.FailWant? && s.writer.None?
    case ProbeFinals => th.nested == 0 && th.pc.FailFinals?
    case ProbeCache => th.nested == 0 && th.pc.FailCache?
    case Walk => th.nested == 0 && th.pc.FailWalk?
    case Fill => th.nested == 0 && th.pc.FailFill?
    case Resolve => th.nested == 0 && th.pc.FailFound?
                    && (th.pc.found.Some? ==> th.pc.found.value in s.points && Unheld(s.points[th.pc.found.value]))
    case Check => th.nested == 0 && th.pc.FailCheck? && th.pc.p in s.points
    case Decide(fails, failnum) =>
      th.nested == 0 && th.pc.FailDecide? && th.pc.p in s.points
      && (s.points[th.pc.p].decide.Always? ==> fails)
      && (!s.points[th.pc.p].decide.External? ==> failnum == s.points[th.pc.p].failnum)
    case Fire => th.nested == 0 && th.pc.FailFire? && th.pc.p in s.points
    case Pass => th.nested == 0 && th.pc.FailPass? && th.pc.p in s.points
    case ReleaseRead => th.nested == 0 && th.pc.FailOut?
    case Return => th.nested == 0 && th.pc.FailDone? && th.rec >= 1
    case StartEnable(name, _, _, _) => th.nested == 0 && th.pc.Idle? && s.table.inited && name != []
    case Create(p) => th.nested == 0 && th.pc.EnableCreate? && p !in s.points && th.rec >= 1
    case Insert => th.nested == 0 && th.pc.EnableReady?
    case StartDisable(name) => th.nested == 0 && th.pc.Idle? && s.table.inited && name != []
    case StartInit => th.nested == 0 && th.pc.Idle?
    case TakeWrite => th.nested == 0 && th.pc.WriteWant? && s.writer.None? && s.readers == {}
    case WriteStep(newCache) =>
      th.nested == 0 && HoldsWrite(th.pc) && !th.pc.WriteOut? && CacheMove(s, th.pc, newCache)
      && (Pending(th.pc).Some? ==> Pending(th.pc).value in s.points)
    case ReleaseWrite => th.nested == 0 && th.pc.WriteOut?
    case Finish => th.nested == 0 && th.pc.WriteDone? && th.rec >= 1
  }

  // ---- fiu_fail ----

  // rec_count goes up first. A call that finds it above 1 is inside another one, on the same thread, and
  // will return 0 at once; any other goes for the lock, whatever the thread was doing.
  function DoCall(s: State, t: Tid, name: string): State
    requires t in s.threads
  {
    var th := s.threads[t];
    if th.rec + 1 > 1 then s.(threads := s.threads[t := th.(rec := th.rec + 1, nested := th.nested + 1)])
    else s.(threads := s.threads[t := Thread(FailWant(name), th.rec + 1, th.nested, |s.calls|, th.last)],
             calls := s.calls + [name])
  }

  function DoUnnest(s: State, t: Tid): State
    requires t in s.threads && s.threads[t].nested > 0
  {
    var th := s.threads[t];
    var rec := if th.rec > 0 then th.rec - 1 else 0;
    s.(threads := s.threads[t := th.(rec := rec, nested := th.nested - 1, last := 0)])
  }

  function DoProbeFinals(s: State, t: Tid): State
    requires t in s.threads && s.threads[t].pc.FailFinals?
  {
    var name := s.threads[t].pc.name;
    if !s.table.inited then Goto(s, t, FailOut(name, None, false, 0))
    else if name in s.table.finals then Goto(s, t, FailFound(name, Some(s.table.finals[name])))
    else Goto(s, t, FailCache(name))
  }

  function DoProbeCache(hash: HashFn, s: State, t: Tid): State
    requires t in s.threads && s.threads[t].pc.FailCache? && s.table.cache != []
  {
    var name := s.threads[t].pc.name;
    match Hit(s.table.cache, hash, name)
    case Some(v) => Goto(s, t, FailFound(name, v))
    case None => Goto(s, t, FailWalk(name))
  }

  function DoWalk(s: State, t: Tid): State
    requires t in s.threads && s.threads[t].pc.FailWalk?
  {
    var name := s.threads[t].pc.name;
    Goto(s, t, FailFill(name, FirstMatch(s.table.ws, name)))
  }

  function DoFill(hash: HashFn, s: State, t: Tid): State
    requires t in s.threads && s.threads[t].pc.FailFill? && s.table.cache != []
  {
    var pc := s.threads[t].pc;
    Goto(SetTable(s, s.table.(cache := Store(s.table.cache, hash, pc.name, pc.found))), t, FailFound(pc.name, pc.found))
  }

  // No point: out. A ONETIME point: wait for its mutex. Any other: decide.
  function DoResolve(s: State, t: Tid): State
    requires t in s.threads && s.threads[t].pc.FailFound?
             && (s.threads[t].pc.found.Some? ==> s.threads[t].pc.found.value in s.points)
  {
    var pc := s.threads[t].pc;
    match pc.found
    case None => Goto(s, t, FailOut(pc.name, None, false, 0))
    case Some(p) =>
      if s.points[p].onetime then Goto(SetPoint(s, p, s.points[p].(owner := Some(t))), t, FailCheck(pc.name, p))
      else Goto(s, t, FailDecide(pc.name, p))
  }

  function DoCheck(s: State, t: Tid): State
    requires t in s.threads && s.threads[t].pc.FailCheck? && s.threads[t].pc.p in s.points
  {
    var pc := s.threads[t].pc;
    if s.points[pc.p].failedOnce
    then Goto(SetPoint(s, pc.p, s.points[pc.p].(owner := None)), t, FailOut(pc.name, Some(pc.p), false, 0))
    else Goto(s, t, FailDecide(pc.name, pc.p))
  }

  // The method's decision; only an external callback can change the failnum.
  function DoDecide(s: State, t: Tid, fails: bool, failnum: int): State
    requires t in s.threads && s.threads[t].pc.FailDecide? && s.threads[t].pc.p in s.points
  {
    var pc := s.threads[t].pc;
    var pt := s.points[pc.p];
    Goto(SetPoint(s, pc.p, pt.(failnum := failnum, stored := pt.stored + {failnum})), t,
         if fails then FailFire(pc.name, pc.p) else FailPass(pc.name, pc.p))
  }

  function DoFire(s: State, t: Tid): State
    requires t in s.threads && s.threads[t].pc.FailFire? && s.threads[t].pc.p in s.points
  {
    var th := s.threads[t];
    var pt := s.points[th.pc.p];
    var pt' := if pt.onetime then pt.(failedOnce := true, owner := None, winner := Some(th.call)) else pt;
    Goto(SetPoint(s, th.pc.p, pt'), t, FailOut(th.pc.name, Some(th.pc.p), true, pt.failnum))
  }

  function DoPass(s: State, t: Tid): State
    requires t in s.threads && s.threads[t].pc.FailPass? && s.threads[t].pc.p in s.points
  {
    var pc := s.threads[t].pc;
    var pt := s.points[pc.p];
    var pt' := if pt.onetime then pt.(owner := None) else pt;
    Goto(SetPoint(s, pc.p, pt'), t, FailOut(pc.name, Some(pc.p), false, 0))
  }

  function DoReleaseRead(s: State, t: Tid): State
    requires t in s.threads && s.threads[t].pc.FailOut?
  {
    var th := s.threads[t];
    var record := Record(th.call, th.pc.name, th.pc.found, th.pc.fired, th.pc.result, s.table);
    Goto(s.(readers := s.readers - {t}), t, FailDone(record))
  }

  function DoReturn(s: State, t: Tid): State
    requires t in s.threads && s.threads[t].pc.FailDone? && s.threads[t].rec >= 1
  {
    var th := s.threads[t];
    var th' := th.(pc := Idle, rec := th.rec - 1, last := th.pc.record.result);
    s.(log := s.log + [th.pc.record], threads := s.threads[t := th'])
  }

  // ---- the writers ----

  function DoCreate(s: State, t: Tid, p: Pid): State
    requires t in s.threads && s.threads[t].pc.EnableCreate? && s.threads[t].rec >= 1
  {
    var th := s.threads[t];
    var pt := NewPoint(th.pc.name, th.pc.decide, th.pc.onetime, th.pc.failnum);
    GotoRec(SetPoint(s, p, pt), t, EnableReady(p), th.rec - 1)
  }

  function Enable(table: Table, name: string, p: Pid): Table {
    table.(ops := table.ops + [HashRuns.SetOp(name, p)], enabled := table.enabled[name := p])
  }

  function Disable(table: Table, name: string): Table {
    table.(ops := table.ops + [HashRuns.DelOp(name)], enabled := table.enabled - {name})
  }

  // wtable_set and wtable_del, one step at a time.
  function DoWriteStep(s: State, t: Tid, newCache: seq<Slot<Option<Pid>>>): State
    requires t in s.threads && HoldsWrite(s.threads[t].pc)
             && (Pending(s.threads[t].pc).Some? ==> Pending(s.threads[t].pc).value in s.points)
  {
    match s.threads[t].pc
    case WriteIn(InitOp) => Goto(SetTable(s, s.table.(inited := true)), t, WriteOut)
    case WriteIn(SetOp(p)) => DoSet(s, t, p, newCache)
    case WriteIn(DelOp(name)) => DoDel(s, t, name)
    case SetGrown(p) => Goto(SetTable(s, s.table.(cache := Invalidated(s.table.cache))), t, SetCleared(p))
    case SetCleared(p) => DoPut(s, t, p)
    case DelFreed => Goto(SetTable(s, s.table.(ws := Shrunk(s.table.ws), cache := newCache)), t, DelShrunk)
    case _ => Goto(SetTable(s, s.table.(cache := Invalidated(s.table.cache))), t, WriteOut)
  }

  // An exact name goes into the hash; a pattern first grows the array.
  function DoSet(s: State, t: Tid, p: Pid, newCache: seq<Slot<Option<Pid>>>): State
    requires t in s.threads && p in s.points
  {
    var table, name := s.table, s.points[p].name;
    if IsWildcard(name) then Goto(SetTable(s, table.(ws := Grown(table.ws), cache := newCache)), t, SetGrown(p))
    else
      var points := if name in table.finals then Destroy(s.points, table.finals[name]) else s.points;
      Goto(SetTable(s.(points := points), Enable(table, name, p).(finals := table.finals[name := p])), t, WriteOut)
  }

  function DoPut(s: State, t: Tid, p: Pid): State
    requires t in s.threads && p in s.points
  {
    var table, name := s.table, s.points[p].name;
    var points := match IndexOf(table.ws, name)
                  case Some(i) => Destroy(s.points, table.ws[i].value)
                  case None => s.points;
    Goto(SetTable(s.(points := points), Enable(table, name, p).(ws := Put(table.ws, name, p))), t, WriteOut)
  }

  function DoDel(s: State, t: Tid, name: string): State
    requires t in s.threads
  {
    var table := Disable(s.table, name);
    if IsWildcard(name) then
      match IndexOf(table.ws, name)
      case None => Goto(SetTable(s, table), t, WriteOut)
      case Some(i) =>
        var points := Destroy(s.points, table.ws[i].value);
        Goto(SetTable(s.(points := points), table.(ws := table.ws[i := WEntry.Free])), t, DelFreed)
    else if name in table.finals then
      var points := Destroy(s.points, table.finals[name]);
      Goto(SetTable(s.(points := points), table.(finals := table.finals - {name})), t, WriteOut)
    else Goto(SetTable(s, table), t, WriteOut)
  }

  function Apply(hash: HashFn, s: State, t: Tid, a: Action): State
    requires Enabled(s, t, a) && s.table.cache != []
  {
    var th := s.threads[t];
    match a
    case Call(name) => DoCall(s, t, name)
    case Unnest => DoUnnest(s, t)
    case TakeRead => Goto(s.(readers := s.readers + {t}), t, FailFinals(th.pc.name))
    case ProbeFinals => DoProbeFinals(s, t)
    case ProbeCache => DoProbeCache(hash, s, t)
    case Walk => DoWalk(s, t)
    case Fill => DoFill(hash, s, t)
    case Resolve => DoResolve(s, t)
    case Check => DoCheck(s, t)
    case Decide(fails, failnum) => DoDecide(s, t, fails, failnum)
    case Fire => DoFire(s, t)
    case Pass => DoPass(s, t)
    case ReleaseRead => DoReleaseRead(s, t)
    case Return => DoReturn(s, t)
    case StartEnable(name, decide, onetime, failnum) =>
      GotoRec(s, t, EnableCreate(name, decide, onetime, failnum), th.rec + 1)
    case Create(p) => DoCreate(s, t, p)
    case Insert => GotoRec(s, t, WriteWant(SetOp(th.pc.p)), th.rec + 1)
    case StartDisable(name) => GotoRec(s, t, WriteWant(DelOp(name)), th.rec + 1)
    case StartInit => GotoRec(s, t, WriteWant(InitOp), th.rec + 1)
    case TakeWrite => Goto(s.(writer := Some(t)), t, WriteIn(th.pc.op))
    case WriteStep(newCache) => DoWriteStep(s, t, newCache)
    case ReleaseWrite => Goto(s.(writer := None), t, WriteDone)
    case Finish => GotoRec(s, t, Idle, th.rec - 1)
  }

  // What an enabled step inside fiu_fail or an exclusive section does.
  lemma Performs(hash: HashFn, s: State, t: Tid, a: Action)
    requires Enabled(s, t, a) && s.table.cache != []
    ensures t in s.threads
    ensures var pc, s' := s.threads[t].pc, Apply(hash, s, t, a);
            match a
            case ProbeFinals => pc.FailFinals? && s' == DoProbeFinals(s, t)
            case ProbeCache => pc.FailCache? && s' == DoProbeCache(hash, s, t)
            case Walk => pc.FailWalk? && s' == DoWalk(s, t)
            case Fill => pc.FailFill? && s' == DoFill(hash, s, t)
            case Resolve =>
              && pc.FailFound? && s' == DoResolve(s, t)
              && (pc.found.Some? ==> pc.found.value in s.points && Unheld(s.points[pc.found.value]))
            case Check => pc.FailCheck? && pc.p in s.points && s' == DoCheck(s, t)
            case Decide(fails, failnum) =>
              && pc.FailDecide? && pc.p in s.points && s' == DoDecide(s, t, fails, failnum)
              && (s.points[pc.p].decide.Always? ==> fails)
              && (!s.points[pc.p].decide.External? ==> failnum == s.points[pc.p].failnum)
            case Fire => pc.FailFire? && pc.p in s.points && s' == DoFire(s, t)
            case Pass => pc.FailPass? && pc.p in s.points && s' == DoPass(s, t)
            case ReleaseRead => pc.FailOut? && s' == DoReleaseRead(s, t)
            case Return => pc.FailDone? && s.threads[t].rec >= 1 && s' == DoReturn(s, t)
            case WriteStep(newCache) =>
              && HoldsWrite(pc) && !pc.WriteOut? && CacheMove(s, pc, newCache) && s' == DoWriteStep(s, t, newCache)
              && (Pending(pc).Some? ==> Pending(pc).value in s.points)
            case _ => true
  {
    hide CacheMove, HoldsWrite, Pending, DoProbeFinals, DoProbeCache, DoWalk, DoFill, DoResolve, DoCheck, DoDecide,
      DoFire, DoPass, DoReleaseRead, DoReturn, DoWriteStep;
  }

  // Before fiu_init, with the table, the cache and the lock as static initialisation leaves them.
  ghost predicate Initial(s: State) {
    && !s.table.inited && s.table.finals == map[] && s.table.ops == [] && s.table.enabled == map[]
    && s.table.ws == Packed([], MIN_SIZE) && s.table.cache != [] && NothingLive(s.table.cache)
    && s.points == map[] && s.readers == {} && s.writer.None? && s.calls == [] && s.log == []
    && forall t :: t in s.threads ==> s.threads[t].pc.Idle? && s.threads[t].rec == 0 && s.threads[t].nested == 0
  }
}
