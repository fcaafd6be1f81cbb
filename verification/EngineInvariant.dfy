// What every step of the engine keeps.
module EngineInvariants {
  import opened Slots
  import opened Caches
  import opened Wildcards
  import opened WTables
  import opened Engine
  import Names = WTableRuns
  import HashRuns

  // ---- the parts of the invariant ----

  ghost predicate LocksOk(s: State) {
    && (forall t :: t in s.readers <==> t in s.threads && HoldsRead(s.threads[t].pc))
    && (forall t :: s.writer == Some(t) <==> t in s.threads && HoldsWrite(s.threads[t].pc))
    && (s.writer.Some? ==> s.readers == {})
  }

  predicate CountOk(th: Thread) {
    th.rec == (if Inside(th.pc) then 1 else 0) + th.nested && (th.nested > 0 ==> Inside(th.pc))
  }

  ghost predicate CountsOk(s: State) {
    forall t :: t in s.threads ==> CountOk(s.threads[t])
  }

  // Where the writer stands; Idle when there is none.
  function Phase(s: State): Pc {
    if s.writer.Some? && s.writer.value in s.threads then s.threads[s.writer.value].pc else Idle
  }

  // The hash and the array hold exactly the names in force.
  ghost predicate Sound(table: Table) {
    && table.finals == Names.ExactNames(table.enabled)
    && WellKeyed(table.ws) && Holds(table.ws, Names.PatternNames(table.enabled))
  }

  ghost predicate Named(table: Table, points: map<Pid, Point>) {
    forall k :: k in table.enabled ==> k != [] && table.enabled[k] in points && points[table.enabled[k]].name == k
  }

  ghost predicate Roomy(ws: seq<WEntry<Pid>>, phase: Pc) {
    && Bounded(|ws|, |Live(ws)| + if phase.DelFreed? then 1 else 0)
    && (phase.SetGrown? || phase.SetCleared? ==> |Live(ws)| + 1 < |ws|)
  }

  // What the sets and deletes so far make of the sequential, cache-free table.
  ghost predicate Settled(table: Table) {
    && Names.Plain(table.finals, table.ws) == Names.PlainAfter(table.ops)
    && table.enabled == HashRuns.MapAfter(table.ops)
  }

  // In the middle of a set or a delete, the array is ahead of it or behind it by one resize.
  ghost predicate Tracks(table: Table, phase: Pc) {
    var plain := Names.PlainAfter(table.ops);
    && table.finals == plain.finals && table.enabled == HashRuns.MapAfter(table.ops)
    && if phase.SetGrown? || phase.SetCleared? then table.ws == Grown(plain.ws)
       else if phase.DelFreed? then Shrunk(table.ws) == plain.ws
       else table.ws == plain.ws
  }

  ghost predicate TableOk(table: Table, points: map<Pid, Point>, phase: Pc) {
    && Sound(table) && Tracks(table, phase) && Named(table, points) && Roomy(table.ws, phase)
    && (forall k :: k in table.enabled ==> !points[table.enabled[k]].freed)
    && (!table.inited ==> table.enabled == map[])
  }

  // Every live slot, at home or not, holds the current answer for its key.
  ghost predicate CacheOk(table: Table, phase: Pc) {
    && table.cache != []
    && (!phase.DelFreed? && !phase.DelShrunk? ==> Agrees(table.cache, table.ws))
    && (phase.SetCleared? ==> NothingLive(table.cache))
  }

  // What fiu_fail should find.
  function Answer(table: Table, name: string): Option<Pid> {
    Lookup(table.finals, table.ws, name)
  }

  // What one call may have made of the point it found.
  ghost predicate OutcomeOk(points: map<Pid, Point>, id: nat, found: Option<Pid>, fired: bool, result: int) {
    && (!fired ==> result == 0)
    && match found
       case None => !fired
       case Some(p) =>
         && p in points
         && (points[p].onetime && fired ==> points[p].winner == Some(id))
         && (points[p].onetime && points[p].decide.Always? ==> points[p].winner.Some?)
         && (!points[p].onetime && points[p].decide.Always? ==> fired)
         && (fired ==> result in points[p].stored)
         && (fired && !points[p].decide.External? ==> result == points[p].failnum)
  }

  ghost predicate RecordOk(points: map<Pid, Point>, r: Record) {
    && OutcomeOk(points, r.id, r.found, r.fired, r.result)
    && r.found == Answer(r.table, r.name) && Sound(r.table) && Settled(r.table) && Named(r.table, points)
  }

  ghost predicate PendingOk(table: Table, points: map<Pid, Point>, p: Pid) {
    && table.inited && p in points && !points[p].freed && points[p].name != []
    && forall k :: k in table.enabled ==> table.enabled[k] != p
  }

  ghost predicate OpOk(table: Table, points: map<Pid, Point>, op: Op) {
    match op
    case InitOp => true
    case SetOp(p) => PendingOk(table, points, p)
    case DelOp(name) => name != [] && table.inited
  }

  // A ONETIME point under decision is locked by this thread and has not failed yet.
  ghost predicate UnderDecision(table: Table, points: map<Pid, Point>, t: Tid, name: string, p: Pid) {
    && Answer(table, name) == Some(p) && p in points
    && (points[p].onetime ==> points[p].owner == Some(t) && !points[p].failedOnce)
  }

  ghost predicate PcOk(table: Table, points: map<Pid, Point>, t: Tid, th: Thread) {
    match th.pc
    case FailCache(name) => name !in table.finals
    case FailWalk(name) => name !in table.finals
    case FailFill(name, found) => name !in table.finals && found == FirstMatch(table.ws, name)
    case FailFound(name, found) => found == Answer(table, name)
    case FailCheck(name, p) =>
      Answer(table, name) == Some(p) && p in points && points[p].onetime && points[p].owner == Some(t)
    case FailDecide(name, p) => UnderDecision(table, points, t, name, p)
    case FailFire(name, p) => UnderDecision(table, points, t, name, p)
    case FailPass(name, p) => UnderDecision(table, points, t, name, p) && !points[p].decide.Always?
    case FailOut(name, found, fired, result) =>
      found == Answer(table, name) && OutcomeOk(points, th.call, found, fired, result)
    case FailDone(r) => RecordOk(points, r) && r.id == th.call && r.table.ops <= table.ops
    case EnableCreate(name, _, _, _) => name != [] && table.inited
    case EnableReady(p) => PendingOk(table, points, p)
    case WriteWant(op) => OpOk(table, points, op)
    case WriteIn(op) => OpOk(table, points, op)
    case SetGrown(p) => PendingOk(table, points, p) && IsWildcard(points[p].name)
    case SetCleared(p) => PendingOk(table, points, p) && IsWildcard(points[p].name)
    case _ => true
  }

  ghost predicate ThreadsOk(s: State) {
    forall t :: t in s.threads ==> PcOk(s.table, s.points, t, s.threads[t])
  }

  ghost predicate PendingDistinct(threads: map<Tid, Thread>) {
    forall t, u :: t in threads && u in threads && t != u && Pending(threads[t].pc).Some?
                   ==> Pending(threads[t].pc) != Pending(threads[u].pc)
  }

  predicate AtMutex(pc: Pc, p: Pid) {
    (pc.FailCheck? || pc.FailDecide? || pc.FailFire? || pc.FailPass?) && pc.p == p
  }

  predicate FlagsOk(pt: Point) {
    && pt.failnum in pt.stored
    && if pt.onetime then pt.failedOnce <==> pt.winner.Some? else pt.owner.None? && pt.winner.None?
  }

  ghost predicate MutexOk(points: map<Pid, Point>, threads: map<Tid, Thread>) {
    forall p :: p in points ==>
                  && FlagsOk(points[p])
                  && (points[p].owner.Some? ==>
                        points[p].owner.value in threads && AtMutex(threads[points[p].owner.value].pc, p))
  }

  function NameAsked(pc: Pc): string
    requires InFail(pc)
  {
    match pc
    case FailWant(name) => name
    case FailFinals(name) => name
    case FailCache(name) => name
    case FailWalk(name) => name
    case FailFill(name, _) => name
    case FailFound(name, _) => name
    case FailCheck(name, _) => name
    case FailDecide(name, _) => name
    case FailFire(name, _) => name
    case FailPass(name, _) => name
    case FailOut(name, _, _, _) => name
    case FailDone(r) => r.name
  }

  // A thread inside fiu_fail, and a record of it, answer the name that was asked for.
  ghost predicate CallOk(calls: seq<string>, th: Thread) {
    InFail(th.pc) ==> th.call < |calls| && calls[th.call] == NameAsked(th.pc)
  }

  ghost predicate LoggedOk(s: State, r: Record) {
    RecordOk(s.points, r) && r.table.ops <= s.table.ops && r.id < |s.calls| && s.calls[r.id] == r.name
  }

  // Calls are numbered apart, and none is lost: each is on record or in progress.
  ghost predicate CallsOk(s: State) {
    && (forall i :: 0 <= i < |s.log| ==> LoggedOk(s, s.log[i]))
    && (forall i, j :: 0 <= i < j < |s.log| ==> s.log[i].id != s.log[j].id)
    && (forall t :: t in s.threads ==> CallOk(s.calls, s.threads[t]))
    && (forall t, i :: t in s.threads && InFail(s.threads[t].pc) && 0 <= i < |s.log| ==>
                         s.log[i].id != s.threads[t].call)
    && (forall t, u :: t in s.threads && u in s.threads && t != u && InFail(s.threads[t].pc) && InFail(s.threads[u].pc)
                       ==> s.threads[t].call != s.threads[u].call)
    && (forall id: nat :: id < |s.calls| ==> Placed(s, id))
  }

  ghost predicate Placed(s: State, id: nat) {
    || (exists i :: 0 <= i < |s.log| && s.log[i].id == id)
    || (exists t :: t in s.threads && InFail(s.threads[t].pc) && s.threads[t].call == id)
  }

  // The call that failed on a ONETIME point is on record, or about to return.
  ghost predicate Fired(r: Record, id: nat, p: Pid) {
    r.id == id && r.fired && r.found == Some(p)
  }

  ghost predicate Returning(th: Thread, id: nat, p: Pid) {
    th.call == id && match th.pc
                     case FailOut(_, found, fired, _) => fired && found == Some(p)
                     case FailDone(r) => Fired(r, id, p)
                     case _ => false
  }

  ghost predicate Witnessed(threads: map<Tid, Thread>, log: seq<Record>, id: nat, p: Pid) {
    || (exists i :: 0 <= i < |log| && Fired(log[i], id, p))
    || (exists t :: t in threads && Returning(threads[t], id, p))
  }

  ghost predicate WinnersOk(s: State) {
    forall p :: p in s.points && s.points[p].winner.Some? ==> Witnessed(s.threads, s.log, s.points[p].winner.value, p)
  }

  ghost predicate Inv(s: State) {
    && LocksOk(s) && CountsOk(s)
    && TableOk(s.table, s.points, Phase(s)) && CacheOk(s.table, Phase(s))
    && ThreadsOk(s) && PendingDistinct(s.threads) && MutexOk(s.points, s.threads)
    && CallsOk(s) && WinnersOk(s)
  }

  lemma Parts(s: State)
    requires Inv(s)
    ensures LocksOk(s) && CountsOk(s) && TableOk(s.table, s.points, Phase(s)) && CacheOk(s.table, Phase(s))
    ensures ThreadsOk(s) && PendingDistinct(s.threads) && MutexOk(s.points, s.threads) && CallsOk(s) && WinnersOk(s)
  {
    hide LocksOk, CountsOk, TableOk, CacheOk, ThreadsOk, PendingDistinct, MutexOk, CallsOk, WinnersOk, Phase;
  }

  lemma OwnPart(s: State, t: Tid)
    requires Inv(s) && t in s.threads
    ensures CountOk(s.threads[t]) && PcOk(s.table, s.points, t, s.threads[t])
  {
    hide CountOk, PcOk, LocksOk, TableOk, CacheOk, PendingDistinct, MutexOk, CallsOk, WinnersOk, Phase;
  }

  // ---- how a step of one thread changes the points ----

  predicate Later(a: Point, b: Point) {
    && b.name == a.name && b.decide == a.decide && b.onetime == a.onetime
    && a.stored <= b.stored && (!a.decide.External? ==> b.failnum == a.failnum)
    && (a.winner.Some? ==> b.winner == a.winner)
  }

  ghost predicate Grows(points: map<Pid, Point>, points': map<Pid, Point>) {
    forall p :: p in points ==> p in points' && Later(points[p], points'[p])
  }

  // Points locked by other threads are left alone.
  ghost predicate Undisturbed(points: map<Pid, Point>, points': map<Pid, Point>, t: Tid) {
    forall p :: p in points && points[p].owner.Some? && points[p].owner != Some(t) ==>
                  p in points' && points'[p].owner == points[p].owner && points'[p].failedOnce == points[p].failedOnce
  }

  predicate SameAnswers(a: Table, b: Table) {
    a.(cache := b.cache) == b
  }

  // ---- one thread moves: what it must show for each part of the invariant ----

  predicate OneMoves(s: State, s': State, t: Tid) {
    t in s.threads && t in s'.threads && s'.threads == s.threads[t := s'.threads[t]]
  }

  predicate LocksFollow(s: State, s': State, t: Tid)
    requires t in s'.threads
  {
    var pc := s'.threads[t].pc;
    && s'.readers == (if HoldsRead(pc) then s.readers + {t} else s.readers - {t})
    && s'.writer == (if HoldsWrite(pc) then Some(t) else if s.writer == Some(t) then None else s.writer)
    && (HoldsRead(pc) ==> s'.writer.None?)
    && (HoldsWrite(pc) ==> s'.readers == {} && (s.writer.None? || s.writer == Some(t)))
  }

  lemma LocksKept(s: State, s': State, t: Tid)
    requires LocksOk(s) && OneMoves(s, s', t) && LocksFollow(s, s', t)
    ensures LocksOk(s')
  {
    hide HoldsRead, HoldsWrite;
    forall u ensures s'.writer == Some(u) <==> u in s'.threads && HoldsWrite(s'.threads[u].pc) {
      assert s.writer == Some(u) <==> u in s.threads && HoldsWrite(s.threads[u].pc);
    }
  }

  lemma CountsKept(s: State, s': State, t: Tid)
    requires CountsOk(s) && OneMoves(s, s', t) && CountOk(s'.threads[t])
    ensures CountsOk(s')
  {
    hide CountOk;
  }

  // A created point that is not in the table yet stays alive and out of it.
  ghost predicate PendingSafe(s: State, s': State, t: Tid) {
    forall u :: u in s.threads && u != t && Pending(s.threads[u].pc).Some?
                && PendingOk(s.table, s.points, Pending(s.threads[u].pc).value)
                ==> PendingOk(s'.table, s'.points, Pending(s.threads[u].pc).value)
  }

  // Another thread's knowledge survives: a lock holder's, because the table cannot change meanwhile.
  lemma PcKept(table: Table, points: map<Pid, Point>, table': Table, points': map<Pid, Point>, t: Tid, u: Tid,
               th: Thread)
    requires u != t && PcOk(table, points, u, th)
    requires Grows(points, points') && Undisturbed(points, points', t)
    requires (table.inited ==> table'.inited) && table.ops <= table'.ops
    requires SameAnswers(table, table') || (!HoldsRead(th.pc) && !HoldsWrite(th.pc))
    requires Pending(th.pc).Some? && PendingOk(table, points, Pending(th.pc).value) ==>
                 PendingOk(table', points', Pending(th.pc).value)
    ensures PcOk(table', points', u, th)
  {
    hide Lookup, FirstMatch, Sound, IsWildcard;
  }

  ghost predicate NobodyElse(s: State, t: Tid) {
    t in s.threads
    && forall u :: u in s.threads && u != t ==> !HoldsRead(s.threads[u].pc) && !HoldsWrite(s.threads[u].pc)
  }

  lemma ThreadsKept(s: State, s': State, t: Tid)
    requires ThreadsOk(s) && OneMoves(s, s', t) && PcOk(s'.table, s'.points, t, s'.threads[t])
    requires Grows(s.points, s'.points) && Undisturbed(s.points, s'.points, t)
    requires (s.table.inited ==> s'.table.inited) && s.table.ops <= s'.table.ops
    requires SameAnswers(s.table, s'.table) || NobodyElse(s, t)
    requires PendingSafe(s, s', t)
    ensures ThreadsOk(s')
  {
    hide PcOk, Grows, Undisturbed, PendingOk, HoldsRead, HoldsWrite;
    forall u | u in s'.threads ensures PcOk(s'.table, s'.points, u, s'.threads[u]) {
      if u != t {
        PcKept(s.table, s.points, s'.table, s'.points, t, u, s.threads[u]);
      }
    }
  }

  ghost predicate PendingFollows(s: State, s': State, t: Tid)
    requires t in s.threads && t in s'.threads
  {
    var p := Pending(s'.threads[t].pc);
    p.None? || p == Pending(s.threads[t].pc) || forall u :: u in s.threads ==> Pending(s.threads[u].pc) != p
  }

  lemma PendingKept(s: State, s': State, t: Tid)
    requires PendingDistinct(s.threads) && OneMoves(s, s', t) && PendingFollows(s, s', t)
    ensures PendingDistinct(s'.threads)
  {
    hide Pending;
    var p := Pending(s'.threads[t].pc);
    forall u, w | u in s'.threads && w in s'.threads && u != w && Pending(s'.threads[u].pc).Some?
      ensures Pending(s'.threads[u].pc) != Pending(s'.threads[w].pc)
    {
      assert u != t ==> s'.threads[u] == s.threads[u];
      assert w != t ==> s'.threads[w] == s.threads[w];
    }
  }

  // Mutexes: taken or released by the moving thread only, in step with its place.
  ghost predicate MutexFollows(s: State, s': State, t: Tid)
    requires t in s'.threads
  {
    forall p :: p in s'.points ==>
                  && FlagsOk(s'.points[p])
                  && (s'.points[p].owner.Some? ==>
                        if s'.points[p].owner.value == t then AtMutex(s'.threads[t].pc, p)
                        else p in s.points && s.points[p].owner == s'.points[p].owner)
  }

  lemma MutexKept(s: State, s': State, t: Tid)
    requires MutexOk(s.points, s.threads) && OneMoves(s, s', t) && MutexFollows(s, s', t)
    ensures MutexOk(s'.points, s'.threads)
  {
    hide FlagsOk, AtMutex;
  }

  lemma OutcomeKept(points: map<Pid, Point>, points': map<Pid, Point>, r: Record)
    requires RecordOk(points, r) && Grows(points, points')
    ensures RecordOk(points', r)
  {
    hide Lookup, Sound;
  }

  // Calls: a new one takes the next number, an active one keeps its own and its name, a returning one
  // is logged.
  ghost predicate CallsFollow(s: State, s': State, t: Tid)
    requires t in s.threads && t in s'.threads
  {
    var th, th' := s.threads[t], s'.threads[t];
    if InFail(th.pc) then
      if InFail(th'.pc) then
        th'.call == th.call && NameAsked(th'.pc) == NameAsked(th.pc) && s'.calls == s.calls && s'.log == s.log
      else th.pc.FailDone? && s'.calls == s.calls && s'.log == s.log + [th.pc.record]
    else
      && s'.log == s.log
      && if InFail(th'.pc) then th'.call == |s.calls| && s'.calls == s.calls + [NameAsked(th'.pc)]
         else s'.calls == s.calls
  }

  lemma EachPcOk(s: State, t: Tid)
    requires ThreadsOk(s) && t in s.threads
    ensures PcOk(s.table, s.points, t, s.threads[t])
  {
    hide PcOk;
  }

  lemma DoneIsOwn(s: State, t: Tid)
    requires ThreadsOk(s) && t in s.threads && s.threads[t].pc.FailDone?
    ensures RecordOk(s.points, s.threads[t].pc.record) && s.threads[t].pc.record.table.ops <= s.table.ops
    ensures s.threads[t].pc.record.id == s.threads[t].call
  {
    hide RecordOk, ThreadsOk;
    assert PcOk(s.table, s.points, t, s.threads[t]) by {
      EachPcOk(s, t);
    }
  }

  lemma LoggedKept(s: State, s': State, r: Record)
    requires LoggedOk(s, r) && Grows(s.points, s'.points) && s.table.ops <= s'.table.ops && s.calls <= s'.calls
    ensures LoggedOk(s', r)
  {
    hide RecordOk, Grows;
    OutcomeKept(s.points, s'.points, r);
  }

  lemma CallsKept(s: State, s': State, t: Tid)
    requires CallsOk(s) && ThreadsOk(s) && OneMoves(s, s', t) && CallsFollow(s, s', t)
    requires Grows(s.points, s'.points) && s.table.ops <= s'.table.ops
    ensures CallsOk(s')
  {
    hide LoggedOk, CallOk, InFail, Placed;
    RecordsKept(s, s', t);
    NumbersKept(s, s', t);
    PlacesKept(s, s', t);
  }

  lemma RecordsKept(s: State, s': State, t: Tid)
    requires CallsOk(s) && ThreadsOk(s) && OneMoves(s, s', t) && CallsFollow(s, s', t)
    requires Grows(s.points, s'.points) && s.table.ops <= s'.table.ops
    ensures forall i :: 0 <= i < |s'.log| ==> LoggedOk(s', s'.log[i])
    ensures forall u :: u in s'.threads ==> CallOk(s'.calls, s'.threads[u])
  {
    hide ThreadsOk, RecordOk, Grows, HoldsRead, Placed;
    if s.threads[t].pc.FailDone? {
      DoneIsOwn(s, t);
      assert CallOk(s.calls, s.threads[t]);
      assert LoggedOk(s, s.threads[t].pc.record);
    }
    assert s.calls <= s'.calls;
    forall i | 0 <= i < |s'.log| ensures LoggedOk(s', s'.log[i]) {
      LoggedKept(s, s', s'.log[i]);
    }
  }

  lemma NumbersKept(s: State, s': State, t: Tid)
    requires CallsOk(s) && ThreadsOk(s) && OneMoves(s, s', t) && CallsFollow(s, s', t)
    ensures forall i, j :: 0 <= i < j < |s'.log| ==> s'.log[i].id != s'.log[j].id
    ensures forall u, i :: u in s'.threads && InFail(s'.threads[u].pc) && 0 <= i < |s'.log| ==>
                s'.log[i].id != s'.threads[u].call
    ensures forall u, w :: u in s'.threads && w in s'.threads && u != w
                           && InFail(s'.threads[u].pc) && InFail(s'.threads[w].pc)
                           ==> s'.threads[u].call != s'.threads[w].call
  {
    hide ThreadsOk, HoldsRead, RecordOk, Placed, NameAsked;
    if s.threads[t].pc.FailDone? {
      DoneIsOwn(s, t);
    }
    assert forall i :: 0 <= i < |s.log| ==> s.log[i].id < |s.calls|;
  }

  lemma PlacesKept(s: State, s': State, t: Tid)
    requires CallsOk(s) && ThreadsOk(s) && OneMoves(s, s', t) && CallsFollow(s, s', t)
    ensures forall id: nat :: id < |s'.calls| ==> Placed(s', id)
  {
    hide ThreadsOk, HoldsRead, LoggedOk, CallOk, NameAsked, RecordOk;
    if s.threads[t].pc.FailDone? {
      DoneIsOwn(s, t);
    }
    forall id: nat | id < |s'.calls| ensures Placed(s', id) {
      if id < |s.calls| {
        assert Placed(s, id);
        if i :| 0 <= i < |s.log| && s.log[i].id == id {
          assert s'.log[i].id == id;
        } else {
          var u :| u in s.threads && InFail(s.threads[u].pc) && s.threads[u].call == id;
          if u == t && !InFail(s'.threads[t].pc) {
            assert s'.log[|s.log|].id == id;
          } else {
            assert InFail(s'.threads[u].pc) && s'.threads[u].call == id;
          }
        }
      } else {
        assert InFail(s'.threads[t].pc) && s'.threads[t].call == id;
      }
    }
  }

  // A winner stays witnessed, and a new one is witnessed by the thread that moves.
  ghost predicate WinnersFollow(s: State, s': State, t: Tid)
    requires t in s.threads && t in s'.threads
  {
    && (forall p :: p in s'.points && s'.points[p].winner.Some?
                    && !(p in s.points && s.points[p].winner == s'.points[p].winner)
                    ==> Returning(s'.threads[t], s'.points[p].winner.value, p))
    && (s'.log == s.log || exists r :: s'.log == s.log + [r])
    && (forall p, id :: Returning(s.threads[t], id, p) ==>
                          Returning(s'.threads[t], id, p) || (|s'.log| > |s.log| && Fired(s'.log[|s.log|], id, p)))
  }

  lemma WinnersKept(s: State, s': State, t: Tid)
    requires WinnersOk(s) && OneMoves(s, s', t) && WinnersFollow(s, s', t)
    ensures WinnersOk(s')
  {
    hide Returning, Fired;
    forall p | p in s'.points && s'.points[p].winner.Some?
      ensures Witnessed(s'.threads, s'.log, s'.points[p].winner.value, p)
    {
      var id := s'.points[p].winner.value;
      if p in s.points && s.points[p].winner == s'.points[p].winner {
        assert Witnessed(s.threads, s.log, id, p);
        if i :| 0 <= i < |s.log| && Fired(s.log[i], id, p) {
          assert Fired(s'.log[i], id, p);
        } else {
          var u :| u in s.threads && Returning(s.threads[u], id, p);
          assert u != t ==> Returning(s'.threads[u], id, p);
        }
      }
    }
  }

  // ---- a step that leaves the table's answers alone ----

  predicate Calm(phase: Pc) {
    !phase.DelFreed? && !phase.DelShrunk? && !phase.SetGrown? && !phase.SetCleared?
  }

  ghost predicate TableFollows(s: State, s': State) {
    && SameAnswers(s.table, s'.table)
    && (Phase(s') == Phase(s) || (Calm(Phase(s)) && Calm(Phase(s'))))
    && (s'.table == s.table || (s.writer.None? && s'.table.cache != [] && Agrees(s'.table.cache, s.table.ws)))
    && Grows(s.points, s'.points)
    && forall p :: p in s.points ==> s'.points[p].freed == s.points[p].freed
  }

  lemma TableKept(s: State, s': State)
    requires TableOk(s.table, s.points, Phase(s)) && CacheOk(s.table, Phase(s)) && TableFollows(s, s')
    ensures TableOk(s'.table, s'.points, Phase(s')) && CacheOk(s'.table, Phase(s'))
  {
    hide WellKeyed, Holds, Bounded, Live, Agrees;
  }

  lemma FollowsFacts(s: State, s': State)
    requires TableFollows(s, s')
    ensures SameAnswers(s.table, s'.table) && Grows(s.points, s'.points)
    ensures (s.table.inited ==> s'.table.inited) && s.table.ops == s'.table.ops
  {
    hide Agrees, Grows, Phase;
  }

  lemma PendingUntouched(s: State, s': State, t: Tid)
    requires TableFollows(s, s')
    ensures PendingSafe(s, s', t)
  {
    hide Agrees;
  }

  // With no point changed, only the places at mutexes matter.
  lemma PointsStill(s: State, s': State, t: Tid)
    requires MutexOk(s.points, s.threads) && OneMoves(s, s', t) && s'.points == s.points
    requires forall p :: AtMutex(s.threads[t].pc, p) ==> AtMutex(s'.threads[t].pc, p)
    ensures MutexFollows(s, s', t) && Undisturbed(s.points, s'.points, t)
  {
    hide AtMutex, FlagsOk;
  }

  lemma WinnersStill(s: State, s': State, t: Tid)
    requires OneMoves(s, s', t) && s'.points == s.points && s'.log == s.log
    requires !s.threads[t].pc.FailOut? && !s.threads[t].pc.FailDone?
    ensures WinnersFollow(s, s', t)
  {
    hide Fired;
  }

  lemma QuietKept(s: State, s': State, t: Tid)
    requires Inv(s) && OneMoves(s, s', t) && LocksFollow(s, s', t) && CountOk(s'.threads[t])
    requires PcOk(s'.table, s'.points, t, s'.threads[t]) && Undisturbed(s.points, s'.points, t)
    requires TableFollows(s, s') && PendingFollows(s, s', t)
    requires MutexFollows(s, s', t) && CallsFollow(s, s', t) && WinnersFollow(s, s', t)
    ensures Inv(s')
  {
    hide LocksOk, CountsOk, CountOk, TableOk, CacheOk, ThreadsOk, PendingDistinct, MutexOk, CallsOk, WinnersOk,
      LocksFollow, PcOk, Undisturbed, TableFollows, MutexFollows, CallsFollow, WinnersFollow, Grows, PendingSafe,
      SameAnswers, PendingFollows;
    LocksKept(s, s', t);
    CountsKept(s, s', t);
    TableKept(s, s');
    FollowsFacts(s, s');
    PendingUntouched(s, s', t);
    ThreadsKept(s, s', t);
    PendingKept(s, s', t);
    MutexKept(s, s', t);
    CallsKept(s, s', t);
    WinnersKept(s, s', t);
  }

  // A move of the thread alone: its locks, its mutexes and its call stay as they are.
  ghost predicate Stands(s: State, t: Tid, th': Thread)
    requires t in s.threads
  {
    var th := s.threads[t];
    && HoldsRead(th'.pc) == HoldsRead(th.pc) && HoldsWrite(th'.pc) == HoldsWrite(th.pc)
    && (th'.pc == th.pc || (Calm(th.pc) && Calm(th'.pc)))
    && CountOk(th') && PcOk(s.table, s.points, t, th')
    && (Pending(th'.pc).None? || Pending(th'.pc) == Pending(th.pc))
    && (forall p :: p in s.points && s.points[p].owner == Some(t) ==> AtMutex(th'.pc, p))
    && InFail(th'.pc) == InFail(th.pc)
    && (InFail(th.pc) ==> th'.call == th.call && NameAsked(th'.pc) == NameAsked(th.pc))
    && (forall p, id :: Returning(th, id, p) ==> Returning(th', id, p))
  }

  lemma StandsFrame(s: State, s': State, t: Tid, th': Thread)
    requires LocksOk(s) && t in s.threads && Stands(s, t, th') && s' == s.(threads := s.threads[t := th'])
    ensures LocksFollow(s, s', t) && TableFollows(s, s') && PendingFollows(s, s', t)
  {
    hide CountOk, PcOk, HoldsRead, HoldsWrite, InFail, Returning, AtMutex, Pending, NameAsked, Agrees;
  }

  lemma StandsFollow(s: State, s': State, t: Tid, th': Thread)
    requires MutexOk(s.points, s.threads) && t in s.threads && Stands(s, t, th')
    requires s' == s.(threads := s.threads[t := th'])
    ensures CountOk(s'.threads[t]) && PcOk(s'.table, s'.points, t, s'.threads[t]) && Undisturbed(s.points, s'.points, t)
    ensures MutexFollows(s, s', t) && CallsFollow(s, s', t) && WinnersFollow(s, s', t)
  {
    hide CountOk, PcOk, HoldsRead, HoldsWrite, InFail, Returning, AtMutex, Pending, NameAsked, FlagsOk;
  }

  lemma StandsKept(s: State, t: Tid, th': Thread)
    requires Inv(s) && t in s.threads && Stands(s, t, th')
    ensures Inv(s.(threads := s.threads[t := th']))
  {
    hide Inv, Stands, LocksFollow, CountOk, PcOk, Undisturbed, TableFollows, PendingFollows, MutexFollows,
      CallsFollow, WinnersFollow, LocksOk, MutexOk, CountsOk, TableOk, CacheOk, ThreadsOk, PendingDistinct, CallsOk,
      WinnersOk;
    var s' := s.(threads := s.threads[t := th']);
    Parts(s);
    StandsFrame(s, s', t, th');
    StandsFollow(s, s', t, th');
    QuietKept(s, s', t);
  }

  // ---- fiu_fail, step by step ----

  lemma NestStep(s: State, t: Tid, name: string)
    requires Inv(s) && t in s.threads && s.threads[t].rec >= 1
    ensures Inv(DoCall(s, t, name))
  {
    hide LocksOk, TableOk, CacheOk, PendingDistinct, CallsOk, WinnersOk, RecordOk, OutcomeOk, OpOk, PendingOk,
      UnderDecision, Lookup, FirstMatch, FlagsOk, Fired;
    var th := s.threads[t];
    StandsKept(s, t, th.(rec := th.rec + 1, nested := th.nested + 1));
  }

  lemma UnnestStep(s: State, t: Tid)
    requires Inv(s) && t in s.threads && s.threads[t].nested > 0
    ensures Inv(DoUnnest(s, t))
  {
    hide LocksOk, TableOk, CacheOk, PendingDistinct, CallsOk, WinnersOk, RecordOk, OutcomeOk, OpOk, PendingOk,
      UnderDecision, Lookup, FirstMatch, FlagsOk, Fired;
    var th := s.threads[t];
    StandsKept(s, t, th.(rec := th.rec - 1, nested := th.nested - 1, last := 0));
  }

  lemma NothingFound(table: Table, name: string)
    requires Sound(table) && table.enabled == map[]
    ensures Answer(table, name) == None
  {
    hide FirstMatch, WellKeyed;
    Names.FirstMatchByNames(table.ws, Names.PatternNames(table.enabled), name);
  }

  // A reader that holds no mutex moves on to another place that holds none.
  predicate Searching(pc: Pc) {
    pc.FailFinals? || pc.FailCache? || pc.FailWalk? || pc.FailFill? || pc.FailFound?
  }

  lemma SearchKept(s: State, t: Tid, pc': Pc)
    requires Inv(s) && t in s.threads && s.threads[t].nested == 0 && Searching(s.threads[t].pc)
    requires (Searching(pc') || pc'.FailDecide? || pc'.FailOut?) && NameAsked(pc') == NameAsked(s.threads[t].pc)
    requires PcOk(s.table, s.points, t, s.threads[t].(pc := pc'))
    ensures Inv(Goto(s, t, pc'))
  {
    hide LocksOk, TableOk, CacheOk, ThreadsOk, PcOk, PendingDistinct, CallsOk, WinnersOk, FlagsOk;
    StandsKept(s, t, s.threads[t].(pc := pc'));
  }

  lemma ProbeFinalsStep(s: State, t: Tid)
    requires Inv(s) && t in s.threads && s.threads[t].nested == 0 && s.threads[t].pc.FailFinals?
    ensures Inv(DoProbeFinals(s, t))
  {
    hide Inv, LocksOk, CountsOk, CacheOk, ThreadsOk, PendingDistinct, MutexOk, CallsOk, WinnersOk, FirstMatch, Sound,
      Tracks, Named, Roomy;
    Parts(s);
    if !s.table.inited {
      NothingFound(s.table, s.threads[t].pc.name);
    }
    SearchKept(s, t, DoProbeFinals(s, t).threads[t].pc);
  }

  // A hit is the current answer for the key.
  lemma HitIsCurrent(table: Table, hash: HashFn, name: string)
    requires table.cache != [] && Agrees(table.cache, table.ws) && Hit(table.cache, hash, name).Some?
    ensures Hit(table.cache, hash, name).value == FirstMatch(table.ws, name)
  {
    hide FirstMatch;
  }

  lemma ReaderSeesNoWriter(s: State, t: Tid)
    requires LocksOk(s) && t in s.threads && HoldsRead(s.threads[t].pc)
    ensures s.writer.None? && Phase(s) == Idle
  {
    hide HoldsRead, HoldsWrite;
  }

  lemma ReaderCache(s: State, t: Tid)
    requires LocksOk(s) && CacheOk(s.table, Phase(s)) && t in s.threads && HoldsRead(s.threads[t].pc)
    ensures s.table.cache != [] && Agrees(s.table.cache, s.table.ws)
  {
    hide LocksOk, HoldsRead, Agrees, NothingLive, Phase;
    ReaderSeesNoWriter(s, t);
  }

  lemma ProbeCacheStep(hash: HashFn, s: State, t: Tid)
    requires Inv(s) && t in s.threads && s.threads[t].nested == 0 && s.threads[t].pc.FailCache?
    ensures Inv(DoProbeCache(hash, s, t)) && s.table.cache != []
    ensures var name := s.threads[t].pc.name;
            DoProbeCache(hash, s, t) == Goto(s, t, if Hit(s.table.cache, hash, name).Some?
                                                   then FailFound(name, Answer(s.table, name)) else FailWalk(name))
  {
    hide Inv, LocksOk, CountsOk, TableOk, CacheOk, ThreadsOk, PendingDistinct, MutexOk, CallsOk, WinnersOk,
      FirstMatch, Hit, Agrees, CountOk;
    Parts(s);
    OwnPart(s, t);
    ReaderCache(s, t);
    var name := s.threads[t].pc.name;
    if Hit(s.table.cache, hash, name).Some? {
      HitIsCurrent(s.table, hash, name);
    }
    SearchKept(s, t, DoProbeCache(hash, s, t).threads[t].pc);
  }

  lemma WalkStep(s: State, t: Tid)
    requires Inv(s) && t in s.threads && s.threads[t].nested == 0 && s.threads[t].pc.FailWalk?
    ensures Inv(DoWalk(s, t))
  {
    hide Inv, FirstMatch, CountOk;
    OwnPart(s, t);
    SearchKept(s, t, DoWalk(s, t).threads[t].pc);
  }

  lemma StoreAgrees(slots: seq<Slot<Option<Pid>>>, hash: HashFn, name: string, ws: seq<WEntry<Pid>>)
    requires slots != [] && Agrees(slots, ws)
    ensures Store(slots, hash, name, FirstMatch(ws, name)) != []
    ensures Agrees(Store(slots, hash, name, FirstMatch(ws, name)), ws)
  {
    hide FirstMatch;
  }

  lemma FillFrame(hash: HashFn, s: State, t: Tid)
    requires Inv(s) && t in s.threads && s.threads[t].pc.FailFill?
    ensures s.table.cache != []
    ensures var s' := DoFill(hash, s, t);
            && OneMoves(s, s', t) && LocksFollow(s, s', t) && TableFollows(s, s')
            && PcOk(s'.table, s'.points, t, s'.threads[t])
  {
    hide Inv, CountsOk, TableOk, CacheOk, ThreadsOk, PendingDistinct, MutexOk, CallsOk, WinnersOk, CountOk, Hit,
      Agrees, Store, FirstMatch, RecordOk, OutcomeOk, PendingOk, OpOk, UnderDecision;
    Parts(s);
    OwnPart(s, t);
    ReaderSeesNoWriter(s, t);
    ReaderCache(s, t);
    StoreAgrees(s.table.cache, hash, s.threads[t].pc.name, s.table.ws);
  }

  lemma FillStep(hash: HashFn, s: State, t: Tid)
    requires Inv(s) && t in s.threads && s.threads[t].nested == 0 && s.threads[t].pc.FailFill?
    ensures Inv(DoFill(hash, s, t))
  {
    hide LocksOk, ThreadsOk, PcOk, LocksFollow, TableFollows, PendingDistinct, CallsOk, WinnersOk, TableOk, CacheOk,
      Store, FlagsOk, MutexOk, MutexFollows, Undisturbed, WinnersFollow;
    FillFrame(hash, s, t);
    var s' := DoFill(hash, s, t);
    PointsStill(s, s', t);
    WinnersStill(s, s', t);
    QuietKept(s, s', t);
  }

  // A reader's step on one point, under its mutex where it has one.
  ghost predicate Touches(s: State, t: Tid, p: Pid, pt': Point, th': Thread)
    requires t in s.threads && p in s.points
  {
    var th, pt := s.threads[t], s.points[p];
    && HoldsRead(th.pc) && HoldsRead(th'.pc) && !th.pc.FailOut? && CountOk(th')
    && th'.call == th.call && NameAsked(th'.pc) == NameAsked(th.pc)
    && PcOk(s.table, s.points[p := pt'], t, th')
    && Later(pt, pt') && pt'.freed == pt.freed && FlagsOk(pt')
    && (pt.owner.None? || pt.owner == Some(t))
    && (pt'.owner.Some? ==> pt'.owner == Some(t) && AtMutex(th'.pc, p))
    && (forall q :: AtMutex(th.pc, q) ==> q == p)
    && (pt'.winner.Some? && pt'.winner != pt.winner ==> Returning(th', pt'.winner.value, p))
  }

  lemma TouchesLocks(s: State, s': State, t: Tid, p: Pid, pt': Point, th': Thread)
    requires LocksOk(s) && t in s.threads && p in s.points && Touches(s, t, p, pt', th')
    requires s' == s.(points := s.points[p := pt'], threads := s.threads[t := th'])
    ensures LocksFollow(s, s', t) && Phase(s') == Phase(s)
  {
    hide CountOk, PcOk, FlagsOk, AtMutex, Inside, Returning, Later, NameAsked;
    ReaderSeesNoWriter(s, t);
  }

  lemma TouchesFrame(s: State, s': State, t: Tid, p: Pid, pt': Point, th': Thread)
    requires LocksOk(s) && t in s.threads && p in s.points && Touches(s, t, p, pt', th')
    requires s' == s.(points := s.points[p := pt'], threads := s.threads[t := th'])
    ensures LocksFollow(s, s', t) && TableFollows(s, s') && Undisturbed(s.points, s'.points, t)
  {
    hide LocksOk, LocksFollow, CountOk, PcOk, FlagsOk, AtMutex, Inside, Returning, HoldsRead, Agrees, Phase,
      NameAsked;
    TouchesLocks(s, s', t, p, pt', th');
  }

  lemma TouchesMutexes(s: State, s': State, t: Tid, p: Pid, pt': Point, th': Thread)
    requires MutexOk(s.points, s.threads) && t in s.threads && p in s.points && Touches(s, t, p, pt', th')
    requires s' == s.(points := s.points[p := pt'], threads := s.threads[t := th'])
    ensures MutexFollows(s, s', t)
  {
    hide CountOk, PcOk, FlagsOk, AtMutex, HoldsRead, HoldsWrite, Returning, Later;
  }

  lemma TouchesCalls(s: State, s': State, t: Tid, p: Pid, pt': Point, th': Thread)
    requires t in s.threads && p in s.points && Touches(s, t, p, pt', th')
    requires s' == s.(points := s.points[p := pt'], threads := s.threads[t := th'])
    ensures CallsFollow(s, s', t) && WinnersFollow(s, s', t) && PendingFollows(s, s', t)
  {
    hide CountOk, PcOk, FlagsOk, AtMutex, Later, Fired;
  }

  lemma TouchesKept(s: State, t: Tid, p: Pid, pt': Point, th': Thread)
    requires Inv(s) && t in s.threads && p in s.points && Touches(s, t, p, pt', th')
    ensures Inv(s.(points := s.points[p := pt'], threads := s.threads[t := th']))
  {
    hide LocksOk, CountsOk, CountOk, TableOk, CacheOk, ThreadsOk, PcOk, PendingDistinct, MutexOk, CallsOk, WinnersOk,
      LocksFollow, TableFollows, Undisturbed, MutexFollows, CallsFollow, WinnersFollow, PendingFollows, Later,
      FlagsOk, AtMutex, HoldsRead, Returning;
    var s' := s.(points := s.points[p := pt'], threads := s.threads[t := th']);
    TouchesFrame(s, s', t, p, pt', th');
    TouchesMutexes(s, s', t, p, pt', th');
    TouchesCalls(s, s', t, p, pt', th');
    QuietKept(s, s', t);
  }

  // The point a reader resolved to is a live one.
  lemma AnswerIsLive(s: State, t: Tid, name: string)
    requires TableOk(s.table, s.points, Phase(s)) && Answer(s.table, name).Some?
    ensures Answer(s.table, name).value in s.points && !s.points[Answer(s.table, name).value].freed
  {
    hide FirstMatch, WellKeyed, Roomy;
    if name !in s.table.finals {
      Names.FirstMatchByNames(s.table.ws, Names.PatternNames(s.table.enabled), name);
    }
  }

  lemma ResolveToMutex(s: State, t: Tid, p: Pid)
    requires Inv(s) && t in s.threads && s.threads[t].nested == 0 && s.threads[t].pc.FailFound?
    requires s.threads[t].pc.found == Some(p) && p in s.points && s.points[p].onetime && s.points[p].owner.None?
    ensures Inv(DoResolve(s, t))
  {
    hide LocksOk, TableOk, CacheOk, PendingDistinct, CallsOk, WinnersOk, RecordOk, Lookup;
    TouchesKept(s, t, p, s.points[p].(owner := Some(t)), DoResolve(s, t).threads[t]);
  }

  lemma ResolveStep(s: State, t: Tid)
    requires Inv(s) && t in s.threads && s.threads[t].nested == 0 && s.threads[t].pc.FailFound?
    requires var f := s.threads[t].pc.found;
             f.Some? ==> f.value in s.points && (s.points[f.value].onetime ==> s.points[f.value].owner.None?)
    ensures Inv(DoResolve(s, t))
  {
    hide Inv, CountOk, Lookup, RecordOk, PendingOk, OpOk;
    OwnPart(s, t);
    var found := s.threads[t].pc.found;
    if found.None? || !s.points[found.value].onetime {
      SearchKept(s, t, DoResolve(s, t).threads[t].pc);
    } else {
      ResolveToMutex(s, t, found.value);
    }
  }

  lemma CheckStep(s: State, t: Tid)
    requires Inv(s) && t in s.threads && s.threads[t].nested == 0 && s.threads[t].pc.FailCheck?
    requires s.threads[t].pc.p in s.points
    ensures Inv(DoCheck(s, t))
  {
    hide LocksOk, TableOk, CacheOk, CountsOk, ThreadsOk, PendingDistinct, CallsOk, WinnersOk, RecordOk, Lookup,
      PendingOk, OpOk;
    var th := s.threads[t];
    OwnPart(s, t);
    var p, th' := th.pc.p, DoCheck(s, t).threads[t];
    if s.points[p].failedOnce {
      TouchesKept(s, t, p, s.points[p].(owner := None), th');
    } else {
      StandsKept(s, t, th');
    }
  }

  lemma DecideStep(s: State, t: Tid, fails: bool, failnum: int)
    requires Inv(s) && t in s.threads && s.threads[t].nested == 0 && s.threads[t].pc.FailDecide?
    requires s.threads[t].pc.p in s.points
    requires var pt := s.points[s.threads[t].pc.p];
             (pt.decide.Always? ==> fails) && (!pt.decide.External? ==> failnum == pt.failnum)
    ensures Inv(DoDecide(s, t, fails, failnum))
  {
    hide LocksOk, TableOk, CacheOk, CountsOk, ThreadsOk, PendingDistinct, CallsOk, WinnersOk, RecordOk, Lookup,
      PendingOk, OpOk;
    var th := s.threads[t];
    OwnPart(s, t);
    TouchesKept(s, t, th.pc.p, DoDecide(s, t, fails, failnum).points[th.pc.p],
                DoDecide(s, t, fails, failnum).threads[t]);
  }

  lemma FireStep(s: State, t: Tid)
    requires Inv(s) && t in s.threads && s.threads[t].nested == 0 && s.threads[t].pc.FailFire?
    requires s.threads[t].pc.p in s.points
    ensures Inv(DoFire(s, t))
  {
    hide LocksOk, TableOk, CacheOk, CountsOk, ThreadsOk, PendingDistinct, CallsOk, WinnersOk, RecordOk, Lookup,
      PendingOk, OpOk;
    var th := s.threads[t];
    OwnPart(s, t);
    TouchesKept(s, t, th.pc.p, DoFire(s, t).points[th.pc.p], DoFire(s, t).threads[t]);
  }

  lemma PassStep(s: State, t: Tid)
    requires Inv(s) && t in s.threads && s.threads[t].nested == 0 && s.threads[t].pc.FailPass?
    requires s.threads[t].pc.p in s.points
    ensures Inv(DoPass(s, t))
  {
    hide LocksOk, TableOk, CacheOk, CountsOk, ThreadsOk, PendingDistinct, CallsOk, WinnersOk, RecordOk, Lookup,
      PendingOk, OpOk;
    var th := s.threads[t];
    OwnPart(s, t);
    TouchesKept(s, t, th.pc.p, DoPass(s, t).points[th.pc.p], DoPass(s, t).threads[t]);
  }

  lemma ReleaseReadFrame(s: State, t: Tid)
    requires Inv(s) && t in s.threads && s.threads[t].pc.FailOut?
    ensures var s' := DoReleaseRead(s, t);
            LocksFollow(s, s', t) && TableFollows(s, s') && Phase(s) == Idle
  {
    hide Inv, CountsOk, TableOk, CacheOk, ThreadsOk, PendingDistinct, MutexOk, CallsOk, WinnersOk, Agrees;
    Parts(s);
    ReaderSeesNoWriter(s, t);
  }

  lemma ReleaseReadRecord(s: State, t: Tid)
    requires Inv(s) && t in s.threads && s.threads[t].pc.FailOut?
    ensures var s' := DoReleaseRead(s, t);
            PcOk(s'.table, s'.points, t, s'.threads[t])
  {
    hide Inv, LocksOk, CountsOk, CacheOk, ThreadsOk, PendingDistinct, MutexOk, CallsOk, WinnersOk, CountOk, Lookup,
      Sound, Roomy, OutcomeOk, Named, LocksFollow, TableFollows;
    Parts(s);
    OwnPart(s, t);
    ReleaseReadFrame(s, t);
  }

  lemma ReleaseReadStep(s: State, t: Tid)
    requires Inv(s) && t in s.threads && s.threads[t].nested == 0 && s.threads[t].pc.FailOut?
    ensures Inv(DoReleaseRead(s, t))
  {
    hide LocksOk, ThreadsOk, PcOk, LocksFollow, TableFollows, PendingDistinct, CallsOk, WinnersOk, TableOk, CacheOk,
      FlagsOk, MutexOk, MutexFollows, Undisturbed;
    ReleaseReadFrame(s, t);
    ReleaseReadRecord(s, t);
    var s' := DoReleaseRead(s, t);
    PointsStill(s, s', t);
    QuietKept(s, s', t);
  }

  // ---- calls begin and end, locks change hands ----

  lemma LocksStill(s: State, s': State, t: Tid)
    requires LocksOk(s) && OneMoves(s, s', t) && s'.readers == s.readers && s'.writer == s.writer
    requires !HoldsRead(s.threads[t].pc) && !HoldsWrite(s.threads[t].pc)
    requires !HoldsRead(s'.threads[t].pc) && !HoldsWrite(s'.threads[t].pc)
    ensures LocksFollow(s, s', t) && Phase(s') == Phase(s)
  {
    hide HoldsRead, HoldsWrite;
  }

  lemma StartFailStep(s: State, t: Tid, name: string)
    requires Inv(s) && t in s.threads && s.threads[t].nested == 0 && s.threads[t].pc.Idle? && s.threads[t].rec == 0
    ensures Inv(DoCall(s, t, name))
  {
    hide PcOk, ThreadsOk, LocksOk, LocksFollow, Phase, PendingDistinct, CallsOk, WinnersOk, TableOk, CacheOk, FlagsOk,
      MutexOk, MutexFollows, Undisturbed, WinnersFollow, Agrees;
    var s' := DoCall(s, t, name);
    AnyPc(s.table, s.points, t, s'.threads[t]);
    LocksStill(s, s', t);
    PointsStill(s, s', t);
    WinnersStill(s, s', t);
    QuietKept(s, s', t);
  }

  // The guard lets a call through only when the thread is outside the library.
  lemma CallStep(s: State, t: Tid, name: string)
    requires Inv(s) && Enabled(s, t, Call(name))
    ensures Inv(DoCall(s, t, name))
  {
    hide LocksOk, TableOk, CacheOk, ThreadsOk, PendingDistinct, MutexOk, CallsOk, WinnersOk, DoCall;
    if s.threads[t].rec >= 1 {
      NestStep(s, t, name);
    } else {
      StartFailStep(s, t, name);
    }
  }

  lemma AnyPc(table: Table, points: map<Pid, Point>, t: Tid, th: Thread)
    requires th.pc.FailWant? || th.pc.FailFinals? || th.pc.Idle? || th.pc.WriteDone?
    ensures PcOk(table, points, t, th)
  {
  }

  lemma ReturnCalls(s: State, t: Tid)
    requires t in s.threads && s.threads[t].pc.FailDone? && s.threads[t].rec >= 1
    ensures CallsFollow(s, DoReturn(s, t), t) && WinnersFollow(s, DoReturn(s, t), t)
  {
    hide Fired;
    assert DoReturn(s, t).log[|s.log|] == s.threads[t].pc.record;
  }

  lemma ReturnStep(s: State, t: Tid)
    requires Inv(s) && t in s.threads && s.threads[t].nested == 0 && s.threads[t].pc.FailDone? && s.threads[t].rec >= 1
    ensures Inv(DoReturn(s, t))
  {
    hide PcOk, ThreadsOk, LocksOk, LocksFollow, Phase, PendingDistinct, CallsOk, WinnersOk, TableOk, CacheOk, FlagsOk,
      MutexOk, MutexFollows, Undisturbed, Agrees, CallsFollow, WinnersFollow;
    var s' := DoReturn(s, t);
    AnyPc(s.table, s.points, t, s'.threads[t]);
    LocksStill(s, s', t);
    ReturnCalls(s, t);
    PointsStill(s, s', t);
    QuietKept(s, s', t);
  }

  lemma TakeReadFrame(s: State, t: Tid)
    requires LocksOk(s) && t in s.threads && s.threads[t].pc.FailWant? && s.writer.None?
    ensures var s' := Goto(s.(readers := s.readers + {t}), t, FailFinals(s.threads[t].pc.name));
            LocksFollow(s, s', t) && TableFollows(s, s')
  {
    hide Agrees;
  }

  lemma TakeReadStep(s: State, t: Tid)
    requires Inv(s) && t in s.threads && s.threads[t].nested == 0 && s.threads[t].pc.FailWant? && s.writer.None?
    ensures Inv(Goto(s.(readers := s.readers + {t}), t, FailFinals(s.threads[t].pc.name)))
  {
    hide PcOk, ThreadsOk, LocksOk, PendingDistinct, CallsOk, WinnersOk, TableOk, CacheOk, FlagsOk, MutexOk,
      MutexFollows, Undisturbed, WinnersFollow, LocksFollow, TableFollows;
    var s' := Goto(s.(readers := s.readers + {t}), t, FailFinals(s.threads[t].pc.name));
    TakeReadFrame(s, t);
    AnyPc(s.table, s.points, t, s'.threads[t]);
    PointsStill(s, s', t);
    WinnersStill(s, s', t);
    QuietKept(s, s', t);
  }

  lemma OpCarried(s: State, t: Tid)
    requires ThreadsOk(s) && t in s.threads && s.threads[t].pc.WriteWant?
    ensures PcOk(s.table, s.points, t, s.threads[t].(pc := WriteIn(s.threads[t].pc.op)))
  {
    assert PcOk(s.table, s.points, t, s.threads[t]);
    hide ThreadsOk, OpOk;
  }

  lemma TakeWriteFrame(s: State, t: Tid)
    requires LocksOk(s) && t in s.threads && s.threads[t].pc.WriteWant? && s.writer.None? && s.readers == {}
    ensures var s' := Goto(s.(writer := Some(t)), t, WriteIn(s.threads[t].pc.op));
            LocksFollow(s, s', t) && TableFollows(s, s')
  {
    hide Agrees;
  }

  lemma TakeWriteStep(s: State, t: Tid)
    requires Inv(s) && t in s.threads && s.threads[t].nested == 0 && s.threads[t].pc.WriteWant?
    requires s.writer.None? && s.readers == {}
    ensures Inv(Goto(s.(writer := Some(t)), t, WriteIn(s.threads[t].pc.op)))
  {
    hide PcOk, ThreadsOk, LocksOk, PendingDistinct, CallsOk, WinnersOk, TableOk, CacheOk, FlagsOk, MutexOk,
      MutexFollows, Undisturbed, WinnersFollow, LocksFollow, TableFollows;
    var s' := Goto(s.(writer := Some(t)), t, WriteIn(s.threads[t].pc.op));
    TakeWriteFrame(s, t);
    OpCarried(s, t);
    PointsStill(s, s', t);
    WinnersStill(s, s', t);
    QuietKept(s, s', t);
  }

  lemma ReleaseWriteFrame(s: State, t: Tid)
    requires LocksOk(s) && t in s.threads && s.threads[t].pc.WriteOut?
    ensures var s' := Goto(s.(writer := None), t, WriteDone);
            LocksFollow(s, s', t) && TableFollows(s, s')
  {
    hide Agrees;
    WriterAlone(s, t);
  }

  lemma ReleaseWriteStep(s: State, t: Tid)
    requires Inv(s) && t in s.threads && s.threads[t].nested == 0 && s.threads[t].pc.WriteOut?
    ensures Inv(Goto(s.(writer := None), t, WriteDone))
  {
    hide PcOk, ThreadsOk, LocksOk, PendingDistinct, CallsOk, WinnersOk, TableOk, CacheOk, FlagsOk, MutexOk,
      MutexFollows, Undisturbed, WinnersFollow, LocksFollow, TableFollows;
    var s' := Goto(s.(writer := None), t, WriteDone);
    ReleaseWriteFrame(s, t);
    AnyPc(s.table, s.points, t, s'.threads[t]);
    PointsStill(s, s', t);
    WinnersStill(s, s', t);
    QuietKept(s, s', t);
  }

  lemma FinishStep(s: State, t: Tid)
    requires Inv(s) && t in s.threads && s.threads[t].nested == 0 && s.threads[t].pc.WriteDone? && s.threads[t].rec >= 1
    ensures Inv(GotoRec(s, t, Idle, s.threads[t].rec - 1))
  {
    hide LocksOk, TableOk, CacheOk, PendingDistinct, CallsOk, WinnersOk, FlagsOk;
    var th := s.threads[t];
    StandsKept(s, t, th.(pc := Idle, rec := th.rec - 1));
  }

  lemma StartWriterStep(s: State, t: Tid, pc: Pc)
    requires Inv(s) && t in s.threads && s.threads[t].nested == 0
    requires (s.threads[t].pc.Idle? || s.threads[t].pc.EnableReady?)
    requires pc.EnableCreate? || pc.WriteWant?
    requires PcOk(s.table, s.points, t, s.threads[t].(pc := pc))
    requires (Pending(pc).None? || Pending(pc) == Pending(s.threads[t].pc))
    ensures Inv(GotoRec(s, t, pc, s.threads[t].rec + 1))
  {
    hide LocksOk, TableOk, CacheOk, PendingDistinct, CallsOk, WinnersOk, FlagsOk, OpOk;
    var th := s.threads[t];
    StandsKept(s, t, th.(pc := pc, rec := th.rec + 1));
  }

  lemma PendingIsOk(s: State, t: Tid, p: Pid)
    requires ThreadsOk(s) && t in s.threads && Pending(s.threads[t].pc) == Some(p)
    ensures PendingOk(s.table, s.points, p)
  {
    hide ThreadsOk, PendingOk, RecordOk, UnderDecision, OutcomeOk, Lookup;
    EachPcOk(s, t);
  }

  lemma CreateFrame(s: State, t: Tid, p: Pid)
    requires Inv(s) && t in s.threads && s.threads[t].nested == 0
    requires s.threads[t].pc.EnableCreate? && s.threads[t].rec >= 1 && p !in s.points
    ensures PcOk(s.table, DoCreate(s, t, p).points, t, DoCreate(s, t, p).threads[t])
    ensures PendingFollows(s, DoCreate(s, t, p), t)
  {
    hide Inv, LocksOk, CountsOk, CacheOk, ThreadsOk, PendingDistinct, MutexOk, CallsOk, WinnersOk, CountOk, Sound,
      Tracks, Roomy, Lookup, RecordOk, OutcomeOk, UnderDecision;
    Parts(s);
    OwnPart(s, t);
    forall u | u in s.threads ensures Pending(s.threads[u].pc) != Some(p) {
      if Pending(s.threads[u].pc) == Some(p) {
        PendingIsOk(s, u, p);
      }
    }
  }

  lemma CreateLocks(s: State, t: Tid, p: Pid)
    requires LocksOk(s) && t in s.threads && s.threads[t].pc.EnableCreate? && s.threads[t].rec >= 1
    ensures LocksFollow(s, DoCreate(s, t, p), t) && Phase(DoCreate(s, t, p)) == Phase(s)
  {
    hide LocksOk, LocksFollow, Phase, NewPoint;
    LocksStill(s, DoCreate(s, t, p), t);
  }

  lemma CreatePoints(s: State, t: Tid, p: Pid)
    requires LocksOk(s) && MutexOk(s.points, s.threads) && t in s.threads && s.threads[t].nested == 0
    requires s.threads[t].pc.EnableCreate? && s.threads[t].rec >= 1 && p !in s.points
    ensures var s' := DoCreate(s, t, p);
            && LocksFollow(s, s', t) && TableFollows(s, s')
            && Undisturbed(s.points, s'.points, t) && MutexFollows(s, s', t)
  {
    hide LocksOk, LocksFollow, Phase, Agrees, HoldsRead, HoldsWrite;
    CreateLocks(s, t, p);
  }

  lemma CreateCalls(s: State, t: Tid, p: Pid)
    requires t in s.threads && CountOk(s.threads[t]) && s.threads[t].nested == 0
    requires s.threads[t].pc.EnableCreate? && s.threads[t].rec >= 1 && p !in s.points
    ensures var s' := DoCreate(s, t, p);
            OneMoves(s, s', t) && CountOk(s'.threads[t]) && CallsFollow(s, s', t) && WinnersFollow(s, s', t)
  {
    hide Fired;
  }

  lemma CreateStep(s: State, t: Tid, p: Pid)
    requires Inv(s) && t in s.threads && s.threads[t].nested == 0
    requires s.threads[t].pc.EnableCreate? && s.threads[t].rec >= 1 && p !in s.points
    ensures Inv(DoCreate(s, t, p))
  {
    hide Inv, LocksOk, CountsOk, TableOk, CacheOk, ThreadsOk, PendingDistinct, MutexOk, CallsOk, WinnersOk, CountOk,
      PcOk, LocksFollow, TableFollows, MutexFollows, Undisturbed, PendingFollows, CallsFollow, WinnersFollow;
    Parts(s);
    OwnPart(s, t);
    CreateFrame(s, t, p);
    CreatePoints(s, t, p);
    CreateCalls(s, t, p);
    QuietKept(s, DoCreate(s, t, p), t);
  }

  // ---- the writers ----

  ghost predicate FreedOnly(points: map<Pid, Point>, points': map<Pid, Point>) {
    && points'.Keys == points.Keys
    && forall p :: p in points ==> points'[p] == points[p] || points'[p] == points[p].(freed := true)
  }

  ghost predicate Writes(s: State, s': State, t: Tid) {
    && t in s.threads && t in s'.threads && HoldsWrite(s.threads[t].pc) && HoldsWrite(s'.threads[t].pc)
    && s' == s.(table := s'.table, points := s'.points,
                threads := s.threads[t := s.threads[t].(pc := s'.threads[t].pc)])
    && FreedOnly(s.points, s'.points) && (s.table.inited ==> s'.table.inited) && s.table.ops <= s'.table.ops
    && (Pending(s'.threads[t].pc).None? || Pending(s'.threads[t].pc) == Pending(s.threads[t].pc))
    && PcOk(s'.table, s'.points, t, s'.threads[t]) && PendingSafe(s, s', t)
  }

  lemma WriterAlone(s: State, t: Tid)
    requires LocksOk(s) && t in s.threads && HoldsWrite(s.threads[t].pc)
    ensures s.writer == Some(t) && s.readers == {} && Phase(s) == s.threads[t].pc
    ensures NobodyElse(s, t)
  {
    hide HoldsRead, HoldsWrite;
    forall u | u in s.threads && u != t ensures !HoldsRead(s.threads[u].pc) && !HoldsWrite(s.threads[u].pc) {
      assert u !in s.readers;
    }
  }

  lemma WritesFrame(s: State, s': State, t: Tid)
    requires LocksOk(s) && CountsOk(s) && MutexOk(s.points, s.threads) && Writes(s, s', t)
    ensures OneMoves(s, s', t) && LocksFollow(s, s', t) && CountOk(s'.threads[t]) && Phase(s') == s'.threads[t].pc
    ensures Grows(s.points, s'.points) && Undisturbed(s.points, s'.points, t)
  {
    hide PcOk, PendingSafe, FlagsOk, AtMutex, LocksOk;
    WriterAlone(s, t);
  }

  lemma WritesFollow(s: State, s': State, t: Tid)
    requires LocksOk(s) && MutexOk(s.points, s.threads) && Writes(s, s', t)
    ensures MutexFollows(s, s', t) && CallsFollow(s, s', t) && WinnersFollow(s, s', t)
  {
    hide PcOk, PendingSafe, LocksOk;
  }

  lemma WritesKept(s: State, s': State, t: Tid)
    requires Inv(s) && Writes(s, s', t)
    requires TableOk(s'.table, s'.points, s'.threads[t].pc) && CacheOk(s'.table, s'.threads[t].pc)
    ensures Inv(s')
  {
    hide LocksOk, LocksFollow, CountsOk, CountOk, TableOk, CacheOk, ThreadsOk, PcOk, PendingDistinct, MutexOk,
      CallsOk, WinnersOk, Grows, Undisturbed, PendingSafe, MutexFollows, CallsFollow, WinnersFollow, Pending, Phase,
      FreedOnly, HoldsRead, HoldsWrite;
    WriterAlone(s, t);
    WritesFrame(s, s', t);
    WritesFollow(s, s', t);
    LocksKept(s, s', t);
    CountsKept(s, s', t);
    ThreadsKept(s, s', t);
    PendingKept(s, s', t);
    MutexKept(s, s', t);
    CallsKept(s, s', t);
    WinnersKept(s, s', t);
  }

  // The points after the one behind `name`, if any, is destroyed.
  function Unlinked(points: map<Pid, Point>, enabled: map<string, Pid>, name: string): map<Pid, Point> {
    if name in enabled then Destroy(points, enabled[name]) else points
  }

  // A set and a delete in force: the point the name stood for, and no other, is destroyed.
  predicate Binds(s: State, s': State, name: string, p: Pid) {
    && s'.points == Unlinked(s.points, s.table.enabled, name)
    && s'.table.enabled == s.table.enabled[name := p]
  }

  predicate Unbinds(s: State, s': State, name: string) {
    && s'.points == Unlinked(s.points, s.table.enabled, name)
    && s'.table.enabled == s.table.enabled - {name}
  }

  ghost predicate AllLive(enabled: map<string, Pid>, points: map<Pid, Point>) {
    forall k :: k in enabled ==>
                  k != [] && enabled[k] in points && points[enabled[k]].name == k && !points[enabled[k]].freed
  }

  lemma UnlinkedFacts(points: map<Pid, Point>, enabled: map<string, Pid>, name: string)
    requires AllLive(enabled, points)
    ensures FreedOnly(points, Unlinked(points, enabled, name))
    ensures AllLive(enabled - {name}, Unlinked(points, enabled, name))
    ensures forall q :: q in points && (forall k :: k in enabled ==> enabled[k] != q) ==>
                Unlinked(points, enabled, name)[q] == points[q]
  {
  }

  lemma RelinkedFacts(points: map<Pid, Point>, enabled: map<string, Pid>, p: Pid)
    requires AllLive(enabled, points) && p in points && !points[p].freed && points[p].name != []
    requires forall k :: k in enabled ==> enabled[k] != p
    ensures AllLive(enabled[points[p].name := p], Unlinked(points, enabled, points[p].name))
  {
    UnlinkedFacts(points, enabled, points[p].name);
    hide Unlinked;
  }

  // Destroying a point that is in the table, or adding the writer's own, leaves other pending points alone.
  lemma OthersPending(s: State, s': State, t: Tid, name: string)
    requires t in s.threads && PendingDistinct(s.threads) && AllLive(s.table.enabled, s.points)
    requires s'.points == Unlinked(s.points, s.table.enabled, name) && (s.table.inited ==> s'.table.inited)
    requires forall k :: k in s'.table.enabled ==>
                           || (k in s.table.enabled && s.table.enabled[k] == s'.table.enabled[k])
                           || Pending(s.threads[t].pc) == Some(s'.table.enabled[k])
    ensures PendingSafe(s, s', t)
  {
    hide Unlinked, Pending, AllLive;
    UnlinkedFacts(s.points, s.table.enabled, name);
    forall u | u in s.threads && u != t && Pending(s.threads[u].pc).Some?
               && PendingOk(s.table, s.points, Pending(s.threads[u].pc).value)
      ensures PendingOk(s'.table, s'.points, Pending(s.threads[u].pc).value)
    {
      var q := Pending(s.threads[u].pc).value;
      assert s'.points[q] == s.points[q];
      assert Pending(s.threads[t].pc) != Some(q);
    }
  }

  // ---- wtable_set and wtable_del, step by step ----

  lemma TableSplit(table: Table, points: map<Pid, Point>, phase: Pc)
    requires TableOk(table, points, phase)
    ensures AllLive(table.enabled, points) && Sound(table) && Tracks(table, phase) && Roomy(table.ws, phase)
    ensures (!table.inited ==> table.enabled == map[])
  {
    hide Tracks, Sound, Roomy;
  }

  lemma TableJoin(table: Table, points: map<Pid, Point>, phase: Pc)
    requires AllLive(table.enabled, points) && Sound(table) && Tracks(table, phase) && Roomy(table.ws, phase)
    requires !table.inited ==> table.enabled == map[]
    ensures TableOk(table, points, phase)
  {
    hide Tracks, Sound, Roomy;
  }

  lemma InitTable(table: Table, points: map<Pid, Point>)
    requires TableOk(table, points, WriteIn(InitOp)) && CacheOk(table, WriteIn(InitOp))
    ensures TableOk(table.(inited := true), points, WriteOut) && CacheOk(table.(inited := true), WriteOut)
  {
    hide Agrees, Holds, WellKeyed, Live, Bounded;
  }

  lemma InitStep(s: State, t: Tid)
    requires Inv(s) && t in s.threads && s.threads[t].pc == WriteIn(InitOp)
    ensures Inv(Goto(SetTable(s, s.table.(inited := true)), t, WriteOut))
  {
    hide Inv, LocksOk, CountsOk, TableOk, CacheOk, ThreadsOk, PendingDistinct, MutexOk, CallsOk, WinnersOk, Phase;
    Parts(s);
    WriterAlone(s, t);
    InitTable(s.table, s.points);
    RearrangedKept(s, Goto(SetTable(s, s.table.(inited := true)), t, WriteOut), t, WriteOut);
  }

  // hash_set on the exact names: the old point, if any, is destroyed.
  lemma ExactSet(table: Table, name: string, p: Pid)
    requires Sound(table) && Tracks(table, WriteIn(SetOp(p))) && !IsWildcard(name)
    ensures var table' := Enable(table, name, p).(finals := table.finals[name := p]);
            Sound(table') && Tracks(table', WriteOut)
    ensures name in table.finals <==> name in table.enabled
    ensures name in table.finals ==> table.finals[name] == table.enabled[name]
  {
    hide WellKeyed, Holds;
    Names.NamesStep(table.enabled, HashRuns.SetOp(name, p));
    Names.OneMoreOp(table.ops, HashRuns.SetOp(name, p));
  }

  lemma BoundFacts(s: State, s': State, t: Tid, p: Pid)
    requires TableOk(s.table, s.points, Phase(s)) && ThreadsOk(s) && PendingDistinct(s.threads) && t in s.threads
    requires (s.threads[t].pc == WriteIn(SetOp(p)) || s.threads[t].pc == SetCleared(p)) && p in s.points
    requires s'.points == Unlinked(s.points, s.table.enabled, s.points[p].name)
    requires s'.table.enabled == s.table.enabled[s.points[p].name := p] && s'.table.inited == s.table.inited
    requires s.table.ops <= s'.table.ops
    requires Sound(s'.table) && Tracks(s'.table, WriteOut) && Roomy(s'.table.ws, WriteOut)
    ensures TableOk(s'.table, s'.points, WriteOut) && FreedOnly(s.points, s'.points) && PendingSafe(s, s', t)
  {
    hide Tracks, ThreadsOk, PendingDistinct, Sound, Roomy, TableOk, AllLive, Unlinked, PendingSafe, FreedOnly;
    PendingIsOk(s, t, p);
    TableSplit(s.table, s.points, Phase(s));
    UnlinkedFacts(s.points, s.table.enabled, s.points[p].name);
    RelinkedFacts(s.points, s.table.enabled, p);
    OthersPending(s, s', t, s.points[p].name);
    TableJoin(s'.table, s'.points, WriteOut);
  }

  // The write that puts a pending point into force.
  lemma BoundKept(s: State, s': State, t: Tid, p: Pid)
    requires Inv(s) && t in s.threads && (s.threads[t].pc == WriteIn(SetOp(p)) || s.threads[t].pc == SetCleared(p))
    requires p in s.points
    requires s'
         == Goto(s.(points := Unlinked(s.points, s.table.enabled, s.points[p].name), table := s'.table), t, WriteOut)
    requires s'.table.enabled == s.table.enabled[s.points[p].name := p] && s'.table.inited == s.table.inited
    requires s.table.ops <= s'.table.ops
    requires Sound(s'.table) && Tracks(s'.table, WriteOut) && Roomy(s'.table.ws, WriteOut)
    requires CacheOk(s'.table, WriteOut)
    ensures Inv(s')
  {
    hide Tracks, LocksOk, CountsOk, ThreadsOk, PendingDistinct, MutexOk, CallsOk, WinnersOk, Sound, Roomy, TableOk,
      CacheOk, Unlinked, PendingSafe, FreedOnly;
    BoundFacts(s, s', t, p);
    WritesKept(s, s', t);
  }

  lemma UnboundFacts(s: State, s': State, t: Tid, name: string, pc': Pc)
    requires TableOk(s.table, s.points, Phase(s)) && ThreadsOk(s) && PendingDistinct(s.threads) && t in s.threads
    requires s.threads[t].pc == WriteIn(DelOp(name))
    requires s'.points == Unlinked(s.points, s.table.enabled, name)
    requires s'.table.enabled == s.table.enabled - {name} && s'.table.inited == s.table.inited
    requires s.table.ops <= s'.table.ops
    requires Sound(s'.table) && Tracks(s'.table, pc') && Roomy(s'.table.ws, pc')
    ensures TableOk(s'.table, s'.points, pc') && FreedOnly(s.points, s'.points) && PendingSafe(s, s', t)
  {
    hide Tracks, ThreadsOk, PendingDistinct, Sound, Roomy, TableOk, AllLive, Unlinked, PendingSafe, FreedOnly;
    TableSplit(s.table, s.points, Phase(s));
    UnlinkedFacts(s.points, s.table.enabled, name);
    OthersPending(s, s', t, name);
    TableJoin(s'.table, s'.points, pc');
  }

  // The write that takes a name out of force.
  lemma UnboundKept(s: State, s': State, t: Tid, name: string, pc': Pc)
    requires Inv(s) && t in s.threads && s.threads[t].pc == WriteIn(DelOp(name)) && (pc'.WriteOut? || pc'.DelFreed?)
    requires s' == Goto(s.(points := Unlinked(s.points, s.table.enabled, name), table := s'.table), t, pc')
    requires s'.table.enabled == s.table.enabled - {name} && s'.table.inited == s.table.inited
    requires s.table.ops <= s'.table.ops
    requires Sound(s'.table) && Tracks(s'.table, pc') && Roomy(s'.table.ws, pc') && CacheOk(s'.table, pc')
    ensures Inv(s')
  {
    hide Tracks, LocksOk, CountsOk, ThreadsOk, PendingDistinct, MutexOk, CallsOk, WinnersOk, Sound, Roomy, TableOk,
      CacheOk, Unlinked, PendingSafe, FreedOnly;
    UnboundFacts(s, s', t, name, pc');
    WritesKept(s, s', t);
  }

  lemma PendingSame(s: State, s': State, t: Tid)
    requires s'.points == s.points && s'.table.enabled == s.table.enabled && (s.table.inited ==> s'.table.inited)
    ensures PendingSafe(s, s', t) && FreedOnly(s.points, s'.points)
  {
  }

  // A write between the two: the names in force and the points stay.
  lemma RearrangedKept(s: State, s': State, t: Tid, pc': Pc)
    requires Inv(s) && t in s.threads && HoldsWrite(s.threads[t].pc) && HoldsWrite(pc')
    requires s' == Goto(SetTable(s, s'.table), t, pc')
    requires (Pending(pc').None? || Pending(pc') == Pending(s.threads[t].pc))
    requires s'.table.enabled == s.table.enabled && s.table.ops <= s'.table.ops && (s.table.inited ==> s'.table.inited)
    requires PcOk(s'.table, s.points, t, s'.threads[t])
    requires TableOk(s'.table, s.points, pc') && CacheOk(s'.table, pc')
    ensures Inv(s')
  {
    hide Inv, TableOk, CacheOk, Pending, PcOk, HoldsWrite, PendingSafe, FreedOnly;
    PendingSame(s, s', t);
    WritesKept(s, s', t);
  }

  lemma ExactReady(s: State, t: Tid, p: Pid, newCache: seq<Slot<Option<Pid>>>)
    requires t in s.threads && p in s.points && !IsWildcard(s.points[p].name)
    requires TableOk(s.table, s.points, WriteIn(SetOp(p))) && CacheOk(s.table, WriteIn(SetOp(p)))
    ensures var s', name := DoSet(s, t, p, newCache), s.points[p].name;
            && s' == Goto(s.(points := Unlinked(s.points, s.table.enabled, name), table := s'.table), t, WriteOut)
            && Binds(s, s', name, p) && s'.table.inited == s.table.inited
            && s.table.ops <= s'.table.ops
            && Sound(s'.table) && Tracks(s'.table, WriteOut) && Roomy(s'.table.ws, WriteOut)
            && CacheOk(s'.table, WriteOut)
  {
    hide Sound, Tracks, TableOk, IsWildcard, Bounded, Live, Agrees, AllLive, Destroy;
    TableSplit(s.table, s.points, WriteIn(SetOp(p)));
    ExactSet(s.table, s.points[p].name, p);
  }

  lemma SetExactStep(s: State, t: Tid, p: Pid, newCache: seq<Slot<Option<Pid>>>)
    requires Inv(s) && t in s.threads && s.threads[t].pc == WriteIn(SetOp(p))
    requires p in s.points && !IsWildcard(s.points[p].name)
    ensures Inv(DoSet(s, t, p, newCache)) && Binds(s, DoSet(s, t, p, newCache), s.points[p].name, p)
  {
    hide Inv, LocksOk, CountsOk, TableOk, CacheOk, ThreadsOk, PendingDistinct, MutexOk, CallsOk, WinnersOk, Phase,
      Sound, Tracks, Roomy, Unlinked, DoSet, Goto, IsWildcard;
    Parts(s);
    WriterAlone(s, t);
    ExactReady(s, t, p, newCache);
    BoundKept(s, DoSet(s, t, p, newCache), t, p);
  }

  lemma GrownTable(s: State, p: Pid, newCache: seq<Slot<Option<Pid>>>)
    requires Sound(s.table) && Bounded(|s.table.ws|, |Live(s.table.ws)|) && s.table.cache != []
    requires Agrees(s.table.cache, s.table.ws)
    requires p in s.points && IsWildcard(s.points[p].name) && CacheMove(s, WriteIn(SetOp(p)), newCache)
    ensures var table := s.table.(ws := Grown(s.table.ws), cache := newCache);
            Sound(table) && Roomy(table.ws, SetGrown(p)) && CacheOk(table, SetGrown(p))
  {
    hide IsWildcard, CacheMove, Live, Packed, FirstMatch, Agrees, Grown;
    GrownFacts(s.table.ws, Names.PatternNames(s.table.enabled));
    GrownCacheAgrees(s, newCache, p);
  }

  lemma GrownReady(s: State, p: Pid, newCache: seq<Slot<Option<Pid>>>)
    requires TableOk(s.table, s.points, WriteIn(SetOp(p))) && CacheOk(s.table, WriteIn(SetOp(p)))
    requires p in s.points && IsWildcard(s.points[p].name) && CacheMove(s, WriteIn(SetOp(p)), newCache)
    ensures var table := s.table.(ws := Grown(s.table.ws), cache := newCache);
            TableOk(table, s.points, SetGrown(p)) && CacheOk(table, SetGrown(p))
  {
    hide IsWildcard, CacheMove, Sound, Bounded, Live, Agrees, Grown;
    GrownTable(s, p, newCache);
  }

  // Growing makes room for one more pattern.
  lemma SetGrowStep(s: State, t: Tid, p: Pid, newCache: seq<Slot<Option<Pid>>>)
    requires Inv(s) && t in s.threads && s.threads[t].pc == WriteIn(SetOp(p))
    requires CacheMove(s, WriteIn(SetOp(p)), newCache)
    requires p in s.points && IsWildcard(s.points[p].name)
    ensures Inv(DoSet(s, t, p, newCache))
  {
    hide Inv, LocksOk, CountsOk, TableOk, CacheOk, ThreadsOk, PendingDistinct, MutexOk, CallsOk, WinnersOk, Phase,
      IsWildcard, CacheMove, Grown;
    Parts(s);
    WriterAlone(s, t);
    PendingIsOk(s, t, p);
    GrownReady(s, p, newCache);
    RearrangedKept(s, DoSet(s, t, p, newCache), t, SetGrown(p));
  }

  lemma GrownCacheAgrees(s: State, newCache: seq<Slot<Option<Pid>>>, p: Pid)
    requires p in s.points && IsWildcard(s.points[p].name) && CacheMove(s, WriteIn(SetOp(p)), newCache)
    requires s.table.cache != [] && Agrees(s.table.cache, s.table.ws)
    requires forall key :: FirstMatch(Grown(s.table.ws), key) == FirstMatch(s.table.ws, key)
    ensures newCache != [] && Agrees(newCache, Grown(s.table.ws))
  {
    hide FirstMatch, Packed, IsWildcard;
    if Resizes(s.table.ws, WriteIn(SetOp(p)), s.points) {
      AgreesSubsumed(s.table.cache, newCache, s.table.ws);
    }
  }

  lemma PatternPending(s: State, t: Tid, p: Pid)
    requires ThreadsOk(s) && t in s.threads && (s.threads[t].pc == SetGrown(p) || s.threads[t].pc == SetCleared(p))
    ensures PendingOk(s.table, s.points, p) && IsWildcard(s.points[p].name)
  {
    hide ThreadsOk, PendingOk, IsWildcard, RecordOk, UnderDecision, OutcomeOk, Lookup;
    EachPcOk(s, t);
  }

  lemma PutFacts(table: Table, name: string, p: Pid)
    requires Sound(table) && IsWildcard(name) && Bounded(|table.ws|, |Live(table.ws)|)
    requires |Live(table.ws)| + 1 < |table.ws|
    ensures var ws := Put(table.ws, name, p);
            Sound(table.(ws := ws, enabled := table.enabled[name := p])) && Bounded(|ws|, |Live(ws)|)
    ensures match IndexOf(table.ws, name)
            case Some(i) => name in table.enabled && table.enabled[name] == table.ws[i].value
            case None => name !in table.enabled
  {
    Names.NamesStep(table.enabled, HashRuns.SetOp(name, p));
    var patterns := Names.PatternNames(table.enabled);
    assert Grown(table.ws) == table.ws;
    AfterSetFacts(table.ws, patterns, name, p);
    assert IndexOf(table.ws, name).Some? <==> name in patterns;
  }

  lemma PutTable(table: Table, points: map<Pid, Point>, name: string, p: Pid)
    requires TableOk(table, points, SetCleared(p)) && CacheOk(table, SetCleared(p)) && IsWildcard(name)
    ensures var table' := Enable(table, name, p).(ws := Put(table.ws, name, p));
            Sound(table') && Tracks(table', WriteOut) && Roomy(table'.ws, WriteOut) && CacheOk(table', WriteOut)
    ensures match IndexOf(table.ws, name)
            case Some(i) => name in table.enabled && table.enabled[name] == table.ws[i].value
            case None => name !in table.enabled
  {
    hide Agrees, Live, Bounded, FirstMatch, Put, IndexOf, IsWildcard, Holds, WellKeyed, Grown;
    PutFacts(table, name, p);
    Names.OneMoreOp(table.ops, HashRuns.SetOp(name, p));
    AgreesWhenEmpty(table.cache, Put(table.ws, name, p));
  }

  lemma PutShape(s: State, t: Tid, p: Pid)
    requires t in s.threads && p in s.points
    requires match IndexOf(s.table.ws, s.points[p].name)
             case Some(i) =>
               s.points[p].name in s.table.enabled && s.table.enabled[s.points[p].name] == s.table.ws[i].value
             case None => s.points[p].name !in s.table.enabled
    ensures DoPut(s, t, p) == Goto(s.(points := Unlinked(s.points, s.table.enabled, s.points[p].name),
                                      table := DoPut(s, t, p).table), t, WriteOut)
  {
    hide Put, IndexOf, Destroy;
  }

  lemma PutReady(s: State, t: Tid, p: Pid)
    requires t in s.threads && p in s.points && IsWildcard(s.points[p].name)
    requires TableOk(s.table, s.points, SetCleared(p)) && CacheOk(s.table, SetCleared(p))
    ensures var s', name := DoPut(s, t, p), s.points[p].name;
            && s' == Goto(s.(points := Unlinked(s.points, s.table.enabled, name), table := s'.table), t, WriteOut)
            && Binds(s, s', name, p) && s'.table.inited == s.table.inited
            && s.table.ops <= s'.table.ops
            && Sound(s'.table) && Tracks(s'.table, WriteOut) && Roomy(s'.table.ws, WriteOut)
            && CacheOk(s'.table, WriteOut)
  {
    hide Tracks, Put, IndexOf, IsWildcard, Sound, TableOk, CacheOk, Roomy, Destroy, Unlinked;
    PutTable(s.table, s.points, s.points[p].name, p);
    PutShape(s, t, p);
  }

  lemma PutStep(s: State, t: Tid, p: Pid)
    requires Inv(s) && t in s.threads && s.threads[t].pc == SetCleared(p) && p in s.points
    ensures Inv(DoPut(s, t, p)) && Binds(s, DoPut(s, t, p), s.points[p].name, p)
  {
    hide Tracks, LocksOk, CountsOk, ThreadsOk, PendingDistinct, MutexOk, CallsOk, WinnersOk, IsWildcard, Sound,
      TableOk, CacheOk, Roomy, Phase, PendingOk, Unlinked, DoPut, Goto;
    WriterAlone(s, t);
    PatternPending(s, t, p);
    PutReady(s, t, p);
    BoundKept(s, DoPut(s, t, p), t, p);
  }

  lemma ClearTable(table: Table, points: map<Pid, Point>, p: Pid)
    requires TableOk(table, points, SetGrown(p)) && CacheOk(table, SetGrown(p))
    ensures var table' := table.(cache := Invalidated(table.cache));
            TableOk(table', points, SetCleared(p)) && CacheOk(table', SetCleared(p))
  {
    hide Bounded, Live, Agrees, Holds, WellKeyed;
    AgreesWhenEmpty(Invalidated(table.cache), table.ws);
  }

  // With the cache empty, whatever is inserted next cannot be contradicted.
  lemma ClearStep(s: State, t: Tid, p: Pid)
    requires Inv(s) && t in s.threads && s.threads[t].pc == SetGrown(p)
    ensures Inv(Goto(SetTable(s, s.table.(cache := Invalidated(s.table.cache))), t, SetCleared(p)))
  {
    hide Inv, LocksOk, CountsOk, TableOk, CacheOk, ThreadsOk, PendingDistinct, MutexOk, CallsOk, WinnersOk, Phase,
      IsWildcard, Invalidated;
    Parts(s);
    WriterAlone(s, t);
    PatternPending(s, t, p);
    ClearTable(s.table, s.points, p);
    RearrangedKept(s, Goto(SetTable(s, s.table.(cache := Invalidated(s.table.cache))), t, SetCleared(p)), t,
                   SetCleared(p));
  }

  lemma DelDoneTable(table: Table, points: map<Pid, Point>)
    requires TableOk(table, points, DelShrunk) && CacheOk(table, DelShrunk)
    ensures var table' := table.(cache := Invalidated(table.cache));
            TableOk(table', points, WriteOut) && CacheOk(table', WriteOut)
  {
    hide Bounded, Live, Agrees, Holds, WellKeyed;
    AgreesWhenEmpty(Invalidated(table.cache), table.ws);
  }

  lemma DelDoneStep(s: State, t: Tid)
    requires Inv(s) && t in s.threads && s.threads[t].pc.DelShrunk?
    ensures Inv(Goto(SetTable(s, s.table.(cache := Invalidated(s.table.cache))), t, WriteOut))
  {
    hide Inv, LocksOk, CountsOk, TableOk, CacheOk, ThreadsOk, PendingDistinct, MutexOk, CallsOk, WinnersOk, Phase,
      Invalidated;
    Parts(s);
    WriterAlone(s, t);
    DelDoneTable(s.table, s.points);
    RearrangedKept(s, Goto(SetTable(s, s.table.(cache := Invalidated(s.table.cache))), t, WriteOut), t, WriteOut);
  }

  lemma ShrunkTable(table: Table, points: map<Pid, Point>, newCache: seq<Slot<Option<Pid>>>)
    requires TableOk(table, points, DelFreed) && newCache != []
    ensures var table' := table.(ws := Shrunk(table.ws), cache := newCache);
            TableOk(table', points, DelShrunk) && CacheOk(table', DelShrunk)
  {
    hide Live, Packed, FirstMatch, Shrunk;
    ShrunkFacts(table.ws, Names.PatternNames(table.enabled));
  }

  lemma ShrinkStep(s: State, t: Tid, newCache: seq<Slot<Option<Pid>>>)
    requires Inv(s) && t in s.threads && s.threads[t].pc.DelFreed? && CacheMove(s, DelFreed, newCache)
    ensures Inv(Goto(SetTable(s, s.table.(ws := Shrunk(s.table.ws), cache := newCache)), t, DelShrunk))
  {
    hide Inv, LocksOk, CountsOk, TableOk, CacheOk, ThreadsOk, PendingDistinct, MutexOk, CallsOk, WinnersOk, Phase,
      Shrunk, Shrinks, Live, Subsumed;
    Parts(s);
    CacheThere(s);
    WriterAlone(s, t);
    ShrunkTable(s.table, s.points, newCache);
    RearrangedKept(s, Goto(SetTable(s, s.table.(ws := Shrunk(s.table.ws), cache := newCache)), t, DelShrunk), t,
                   DelShrunk);
  }

  lemma DelTracks(table: Table, name: string)
    requires Tracks(table, WriteIn(DelOp(name))) && IsWildcard(name)
    ensures match IndexOf(table.ws, name)
            case None => Tracks(Disable(table, name), WriteOut)
            case Some(i) => Tracks(Disable(table, name).(ws := table.ws[i := WEntry.Free]), DelFreed)
  {
    hide IndexOf, Live, Packed, Shrinks, Names.PlainAfter, HashRuns.MapAfter, IsWildcard;
    Names.OneMoreOp(table.ops, HashRuns.DelOp(name));
  }

  lemma DelTable(table: Table, name: string)
    requires Sound(table) && Bounded(|table.ws|, |Live(table.ws)|) && IsWildcard(name)
    ensures match IndexOf(table.ws, name)
            case None => name !in table.enabled
            case Some(i) =>
              && name in table.enabled && table.enabled[name] == table.ws[i].value
              && Sound(Disable(table, name).(ws := table.ws[i := WEntry.Free]))
              && Roomy(table.ws[i := WEntry.Free], DelFreed)
  {
    hide Holds, WellKeyed, FirstMatch, IndexOf, Live, Packed, IsWildcard, Shrunk;
    Names.NamesStep(table.enabled, HashRuns.DelOp(name));
    RemoveUnbinds(table.ws, name, Names.PatternNames(table.enabled));
    AfterDelFacts(table.ws, Names.PatternNames(table.enabled), name);
  }

  lemma NothingTable(table: Table, points: map<Pid, Point>, name: string)
    requires TableOk(table, points, WriteIn(DelOp(name))) && CacheOk(table, WriteIn(DelOp(name)))
    requires name !in table.enabled
    requires Tracks(Disable(table, name), WriteOut)
    ensures Disable(table, name).enabled == table.enabled
    ensures TableOk(Disable(table, name), points, WriteOut) && CacheOk(Disable(table, name), WriteOut)
  {
    hide Bounded, Live, Agrees, Tracks, WellKeyed, Holds;
    assert table.enabled - {name} == table.enabled;
  }

  lemma NothingToUnbind(s: State, t: Tid, name: string)
    requires Inv(s) && t in s.threads && s.threads[t].pc == WriteIn(DelOp(name)) && name !in s.table.enabled
    requires Tracks(Disable(s.table, name), WriteOut)
    ensures Inv(Goto(SetTable(s, Disable(s.table, name)), t, WriteOut))
  {
    hide Inv, LocksOk, CountsOk, TableOk, CacheOk, ThreadsOk, PendingDistinct, MutexOk, CallsOk, WinnersOk, Phase,
      Tracks;
    Parts(s);
    WriterAlone(s, t);
    NothingTable(s.table, s.points, name);
    RearrangedKept(s, Goto(SetTable(s, Disable(s.table, name)), t, WriteOut), t, WriteOut);
  }

  lemma NothingUnbinds(s: State, t: Tid, name: string)
    requires t in s.threads && name !in s.table.enabled
    ensures Unbinds(s, Goto(SetTable(s, Disable(s.table, name)), t, WriteOut), name)
  {
    assert s.table.enabled - {name} == s.table.enabled;
  }

  lemma DelPatternReady(s: State, t: Tid, name: string)
    requires t in s.threads && IsWildcard(name) && IndexOf(s.table.ws, name).Some?
    requires TableOk(s.table, s.points, WriteIn(DelOp(name))) && CacheOk(s.table, WriteIn(DelOp(name)))
    ensures var s' := DoDel(s, t, name);
            && s' == Goto(s.(points := Unlinked(s.points, s.table.enabled, name), table := s'.table), t, DelFreed)
            && Unbinds(s, s', name) && s'.table.inited == s.table.inited
            && s.table.ops <= s'.table.ops
            && Sound(s'.table) && Tracks(s'.table, DelFreed) && Roomy(s'.table.ws, DelFreed)
            && CacheOk(s'.table, DelFreed)
  {
    hide Sound, Tracks, Bounded, Live, IsWildcard, IndexOf, Agrees, Destroy;
    DelTracks(s.table, name);
    DelTable(s.table, name);
  }

  lemma NoSuchPattern(table: Table, points: map<Pid, Point>, name: string)
    requires TableOk(table, points, WriteIn(DelOp(name))) && IsWildcard(name) && IndexOf(table.ws, name).None?
    ensures name !in table.enabled && Tracks(Disable(table, name), WriteOut)
  {
    hide Sound, Tracks, Bounded, Live, IsWildcard, IndexOf, Agrees;
    DelTracks(table, name);
    DelTable(table, name);
  }

  // Deleting a pattern frees its entry at once; the array and the cache are put right before the lock
  // is released.
  lemma DelPatternStep(s: State, t: Tid, name: string)
    requires Inv(s) && t in s.threads && s.threads[t].pc == WriteIn(DelOp(name)) && IsWildcard(name)
    ensures Inv(DoDel(s, t, name)) && Unbinds(s, DoDel(s, t, name), name)
  {
    hide Inv, LocksOk, CountsOk, TableOk, CacheOk, ThreadsOk, PendingDistinct, MutexOk, CallsOk, WinnersOk, Phase,
      Tracks, IsWildcard, IndexOf, Sound, Roomy, Unlinked, Goto;
    Parts(s);
    WriterAlone(s, t);
    if IndexOf(s.table.ws, name).Some? {
      DelPatternReady(s, t, name);
      UnboundKept(s, DoDel(s, t, name), t, name, DelFreed);
    } else {
      NoSuchPattern(s.table, s.points, name);
      NothingToUnbind(s, t, name);
      NothingUnbinds(s, t, name);
    }
  }

  lemma ExactDel(table: Table, name: string)
    requires Sound(table) && Tracks(table, WriteIn(DelOp(name))) && !IsWildcard(name)
    ensures name in table.finals <==> name in table.enabled
    ensures name in table.finals ==> table.finals[name] == table.enabled[name]
    ensures var table' := Disable(table, name).(finals := table.finals - {name});
            Sound(table') && Tracks(table', WriteOut) && (name !in table.finals ==> table' == Disable(table, name))
  {
    hide WellKeyed, Holds;
    Names.NamesStep(table.enabled, HashRuns.DelOp(name));
    Names.OneMoreOp(table.ops, HashRuns.DelOp(name));
    assert name !in table.finals ==> table.finals - {name} == table.finals;
  }

  lemma DelExactStep(s: State, t: Tid, name: string)
    requires Inv(s) && t in s.threads && s.threads[t].pc == WriteIn(DelOp(name)) && !IsWildcard(name)
    ensures Inv(DoDel(s, t, name)) && Unbinds(s, DoDel(s, t, name), name)
  {
    hide LocksOk, CountsOk, ThreadsOk, PendingDistinct, MutexOk, CallsOk, WinnersOk, Sound, Tracks, Bounded, Live,
      IsWildcard, IndexOf, Agrees;
    WriterAlone(s, t);
    ExactDel(s.table, name);
    if name in s.table.finals {
      assert Roomy(s.table.ws, WriteOut) && CacheOk(s.table, WriteOut);
      hide TableOk, Roomy, Destroy;
      UnboundKept(s, DoDel(s, t, name), t, name, WriteOut);
    } else {
      NothingToUnbind(s, t, name);
    }
  }

  lemma DelStep(s: State, t: Tid, name: string)
    requires Inv(s) && t in s.threads && s.threads[t].pc == WriteIn(DelOp(name))
    ensures Inv(DoDel(s, t, name)) && Unbinds(s, DoDel(s, t, name), name)
  {
    hide Inv, DoDel, Unbinds;
    if IsWildcard(name) {
      DelPatternStep(s, t, name);
    } else {
      DelExactStep(s, t, name);
    }
  }

  // ---- every step, from the start ----

  lemma InsertStep(s: State, t: Tid)
    requires Inv(s) && t in s.threads && s.threads[t].nested == 0 && s.threads[t].pc.EnableReady?
    ensures Inv(GotoRec(s, t, WriteWant(SetOp(s.threads[t].pc.p)), s.threads[t].rec + 1))
  {
    hide LocksOk, CountsOk, TableOk, CacheOk, PendingDistinct, MutexOk, CallsOk, WinnersOk;
    PendingIsOk(s, t, s.threads[t].pc.p);
    StartWriterStep(s, t, WriteWant(SetOp(s.threads[t].pc.p)));
  }

  lemma WriteStepKept(hash: HashFn, s: State, t: Tid, newCache: seq<Slot<Option<Pid>>>)
    requires Inv(s) && s.table.cache != [] && Enabled(s, t, WriteStep(newCache))
    ensures Inv(Apply(hash, s, t, WriteStep(newCache)))
  {
    hide Inv, Goto, SetTable, DoSet, DoPut, DoDel, CacheMove;
    match s.threads[t].pc {
      case WriteIn(InitOp) => InitStep(s, t);
      case WriteIn(SetOp(p)) =>
        if IsWildcard(s.points[p].name) {
          SetGrowStep(s, t, p, newCache);
        } else {
          SetExactStep(s, t, p, newCache);
        }
      case WriteIn(DelOp(name)) => DelStep(s, t, name);
      case SetGrown(p) => ClearStep(s, t, p);
      case SetCleared(p) => PutStep(s, t, p);
      case DelFreed => ShrinkStep(s, t, newCache);
      case DelShrunk => DelDoneStep(s, t);
    }
  }

  lemma CacheThere(s: State)
    requires Inv(s)
    ensures s.table.cache != []
  {
    hide LocksOk, CountsOk, TableOk, ThreadsOk, PendingDistinct, MutexOk, CallsOk, WinnersOk, Agrees, NothingLive;
  }

  lemma Step(hash: HashFn, s: State, t: Tid, a: Action)
    requires Inv(s) && s.table.cache != [] && Enabled(s, t, a)
    ensures Inv(Apply(hash, s, t, a))
  {
    hide Inv, Goto, GotoRec, DoCall, DoUnnest, DoProbeFinals, DoProbeCache, DoWalk, DoFill, DoResolve, DoCheck,
      DoDecide, DoFire, DoPass, DoReleaseRead, DoReturn, DoCreate, DoWriteStep, CacheMove;
    match a {
      case Call(name) => CallStep(s, t, name);
      case Unnest => UnnestStep(s, t);
      case TakeRead => TakeReadStep(s, t);
      case ProbeFinals => ProbeFinalsStep(s, t);
      case ProbeCache => ProbeCacheStep(hash, s, t);
      case Walk => WalkStep(s, t);
      case Fill => FillStep(hash, s, t);
      case Resolve => ResolveStep(s, t);
      case Check => CheckStep(s, t);
      case Decide(fails, failnum) => DecideStep(s, t, fails, failnum);
      case Fire => FireStep(s, t);
      case Pass => PassStep(s, t);
      case ReleaseRead => ReleaseReadStep(s, t);
      case Return => ReturnStep(s, t);
      case StartEnable(name, decide, onetime, failnum) =>
        StartWriterStep(s, t, EnableCreate(name, decide, onetime, failnum));
      case Create(p) => CreateStep(s, t, p);
      case Insert => InsertStep(s, t);
      case StartDisable(name) => StartWriterStep(s, t, WriteWant(DelOp(name)));
      case StartInit => StartWriterStep(s, t, WriteWant(InitOp));
      case TakeWrite => TakeWriteStep(s, t);
      case WriteStep(newCache) => WriteStepKept(hash, s, t, newCache);
      case ReleaseWrite => ReleaseWriteStep(s, t);
      case Finish => FinishStep(s, t);
    }
  }

  lemma InitialHolds(s: State)
    requires Initial(s)
    ensures Inv(s)
  {
    hide FirstMatch, Agrees, Live, Holds, WellKeyed, IsWildcard, NothingLive;
    EmptyArray<Pid>(s.table.ws);
    Names.NoNames<Pid>();
    AgreesWhenEmpty(s.table.cache, s.table.ws);
  }
}
