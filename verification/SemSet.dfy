/** The life of a three-member System V semaphore set under sem_create, sem_open,
    sem_close, sem_rm and sem_op. A step is one system call or the exit of a
    process, at which the kernel adds the process's undo adjustments back. */
module SemSet {
  import opened Values

  const BIGCOUNT := 10000
  const SEMVMX := 32767

  /** The set the key names. ready: member [1] has been given its BIGCOUNT. */
  datatype Set = Set(id: nat, v0: int, v1: int, v2: int, ready: bool)

  datatype Pc =
    | Idle
    | CreateGet(init: int)
    | CreateLock(id: nat, init: int)
    | CreateTest(id: nat, init: int)
    | CreateVal(id: nat, init: int)
    | CreateCount(id: nat, init: int)
    | CreateEnd(id: nat, init: int)
    | OpenGet
    | OpenDec(id: nat)
    | CloseLock(id: nat)
    | CloseTest(id: nat)
    | CloseRm(id: nat)
    | CloseUnlock(id: nat)
    | Rm(id: nat)
    | Op(id: nat, amount: int)
    | Dumped(id: nat)
    | Dead

  /** held are the set ids the process has created or opened and not closed, over
      those it has closed without that; adj0, adj1 and adj2 are its undo adjustments
      on the present set. */
  datatype Proc = Proc(pc: Pc, held: multiset<nat>, over: multiset<nat>, adj0: int, adj1: int, adj2: int)

  /** next is the id the next set gets; known are those that a sem_create or sem_open
      has returned. */
  datatype State = State(live: Option<Set>, next: nat, known: set<nat>, procs: seq<Proc>)

  predicate IsLive(s: State, id: nat) {
    s.live.Some? && s.live.value.id == id
  }

  function Go(s: State, p: nat, pc: Pc): State
    requires p < |s.procs|
  {
    s.(procs := s.procs[p := s.procs[p].(pc := pc)])
  }

  function With(s: State, x: Set, p: nat, q: Proc): State
    requires p < |s.procs|
  {
    s.(live := Some(x), procs := s.procs[p := q])
  }

  // ---- System calls ---------------------------------------------------------

  /** semget with IPC_CREAT: the present set, or a new one of three zeros. */
  function Get(s: State, p: nat, init: int): State
    requires p < |s.procs|
  {
    if s.live.Some? then Go(s, p, CreateLock(s.live.value.id, init))
    else Go(s.(live := Some(Set(s.next, 0, 0, 0, false)), next := s.next + 1), p, CreateLock(s.next, init))
  }

  /** Wait for [2] to be 0, then add 1 with undo. */
  ghost predicate Lock(s: State, p: nat, pc: Pc, t: State)
    requires p < |s.procs| && s.live.Some?
  {
    var x, q := s.live.value, s.procs[p];
    x.v2 == 0 && t == With(s, x.(v2 := 1), p, q.(pc := pc, adj2 := q.adj2 - 1))
  }

  /** SETVAL of a member drops every process's adjustment of it. */
  function Cleared0(procs: seq<Proc>): seq<Proc> {
    seq(|procs|, i requires 0 <= i < |procs| => procs[i].(adj0 := 0))
  }

  function Cleared1(procs: seq<Proc>): seq<Proc> {
    seq(|procs|, i requires 0 <= i < |procs| => procs[i].(adj1 := 0))
  }

  function Cleared(procs: seq<Proc>): seq<Proc> {
    seq(|procs|, i requires 0 <= i < |procs| => procs[i].(adj0 := 0, adj1 := 0, adj2 := 0))
  }

  function SetVal0(s: State, p: nat, id: nat, init: int): State
    requires p < |s.procs| && s.live.Some?
  {
    Go(s.(live := Some(s.live.value.(v0 := init)), procs := Cleared0(s.procs)), p, CreateCount(id, init))
  }

  function SetVal1(s: State, p: nat, id: nat, init: int): State
    requires p < |s.procs| && s.live.Some?
  {
    Go(s.(live := Some(s.live.value.(v1 := BIGCOUNT, ready := true)), procs := Cleared1(s.procs)), p,
       CreateEnd(id, init))
  }

  /** op_endcreate: [1] and [2] down by 1 in one operation. */
  ghost predicate EndCreate(s: State, p: nat, id: nat, t: State)
    requires p < |s.procs| && s.live.Some?
  {
    var x, q := s.live.value, s.procs[p];
    && x.v1 >= 1 && x.v2 >= 1
    && t == With(s.(known := s.known + {id}), x.(v1 := x.v1 - 1, v2 := x.v2 - 1), p,
                 q.(pc := Idle, held := q.held + multiset{id}, adj1 := q.adj1 + 1, adj2 := q.adj2 + 1))
  }

  ghost predicate Dec(s: State, p: nat, id: nat, t: State)
    requires p < |s.procs| && s.live.Some?
  {
    var x, q := s.live.value, s.procs[p];
    && x.v1 >= 1
    && t == With(s.(known := s.known + {id}), x.(v1 := x.v1 - 1), p,
                 q.(pc := Idle, held := q.held + multiset{id}, adj1 := q.adj1 + 1))
  }

  /** The process has one use less, or has closed once more than it may. */
  function Closed(q: Proc, id: nat): Proc {
    if id in q.held then q.(held := q.held - multiset{id}) else q.(over := q.over + multiset{id})
  }

  /** op_close: wait for [2] to be 0, then [2] and [1] up by 1. */
  ghost predicate BeginClose(s: State, p: nat, id: nat, t: State)
    requires p < |s.procs| && s.live.Some?
  {
    var x, q := s.live.value, s.procs[p];
    && x.v2 == 0 && x.v1 < SEMVMX
    && t == With(s, x.(v1 := x.v1 + 1, v2 := 1), p,
                 Closed(q, id).(pc := CloseTest(id), adj1 := q.adj1 - 1, adj2 := q.adj2 - 1))
  }

  ghost predicate Unlock(s: State, p: nat, t: State)
    requires p < |s.procs| && s.live.Some?
  {
    var x, q := s.live.value, s.procs[p];
    x.v2 >= 1 && t == With(s, x.(v2 := x.v2 - 1), p, q.(pc := Idle, adj2 := q.adj2 + 1))
  }

  /** IPC_RMID; the adjustments of a removed set are gone with it. */
  function Remove(s: State, p: nat): State
    requires p < |s.procs|
  {
    Go(s.(live := None, procs := Cleared(s.procs)), p, Idle)
  }

  ghost predicate Add(s: State, p: nat, amount: int, t: State)
    requires p < |s.procs| && s.live.Some?
  {
    var x, q := s.live.value, s.procs[p];
    0 <= x.v0 + amount <= SEMVMX && t == With(s, x.(v0 := x.v0 + amount), p, q.(pc := Idle, adj0 := q.adj0 - amount))
  }

  function Clamp(v: int): int {
    if v < 0 then 0 else if v > SEMVMX then SEMVMX else v
  }

  /** A process ends, at any point. */
  function Exit(s: State, p: nat): State
    requires p < |s.procs|
  {
    var q, gone := s.procs[p], Proc(Dead, multiset{}, multiset{}, 0, 0, 0);
    match s.live
    case None => s.(procs := s.procs[p := gone])
    case Some(x) =>
      With(s, x.(v0 := Clamp(x.v0 + q.adj0), v1 := Clamp(x.v1 + q.adj1), v2 := Clamp(x.v2 + q.adj2)), p, gone)
  }

  // ---- Steps ----------------------------------------------------------------

  ghost predicate Begin(s: State, p: nat, t: State)
    requires p < |s.procs|
  {
    || (exists init :: t == Go(s, p, CreateGet(init)))
    || t == Go(s, p, OpenGet)
    || (exists id :: id in s.known && t == Go(s, p, CloseLock(id)))
    || (exists id :: t == Go(s, p, Rm(id)))
    || (exists id, amount :: amount != 0 && t == Go(s, p, Op(id, amount)))
  }

  /** What a process does with the set it has the id of. */
  ghost predicate Acts(s: State, p: nat, t: State)
    requires p < |s.procs| && s.live.Some?
  {
    match s.procs[p].pc
    case CreateLock(id, init) => Lock(s, p, CreateTest(id, init), t)
    case CreateTest(id, init) =>
      t == Go(s, p, if s.live.value.v1 == 0 then CreateVal(id, init) else CreateEnd(id, init))
    case CreateVal(id, init) => 0 <= init <= SEMVMX && t == SetVal0(s, p, id, init)
    case CreateCount(id, init) => t == SetVal1(s, p, id, init)
    case CreateEnd(id, init) => EndCreate(s, p, id, t)
    case OpenDec(id) => Dec(s, p, id, t)
    case CloseLock(id) => BeginClose(s, p, id, t)
    case CloseTest(id) =>
      var v1 := s.live.value.v1;
      t == Go(s, p, if v1 > BIGCOUNT then Dumped(id) else if v1 == BIGCOUNT then CloseRm(id) else CloseUnlock(id))
    case CloseRm(id) => t == Remove(s, p)
    case CloseUnlock(id) => Unlock(s, p, t)
    case Rm(id) => t == Remove(s, p)
    case Op(id, amount) => Add(s, p, amount, t)
    case _ => false
  }

  predicate HasId(pc: Pc) {
    !pc.Idle? && !pc.CreateGet? && !pc.OpenGet? && !pc.Dumped? && !pc.Dead?
  }

  /** Process p takes a step. A call on a set that is gone ends the process, but
      sem_create begins again. */
  ghost predicate Next(s: State, p: nat, t: State)
    requires p < |s.procs|
  {
    var pc := s.procs[p].pc;
    if pc.Dead? then false
    else
      || t == Exit(s, p)
      || (pc.Idle? && Begin(s, p, t))
      || (pc.CreateGet? && (t == Get(s, p, pc.init) || t == Go(s, p, Idle)))
      || (pc.OpenGet? && t == Go(s, p, if s.live.Some? then OpenDec(s.live.value.id) else Idle))
      || (HasId(pc) && IsLive(s, pc.id) && Acts(s, p, t))
      || (pc.CreateLock? && !IsLive(s, pc.id) && t == Go(s, p, CreateGet(pc.init)))
  }

  function Init(n: nat): State {
    State(None, 0, {}, seq(n, _ => Proc(Idle, multiset{}, multiset{}, 0, 0, 0)))
  }

  // ---- Users ----------------------------------------------------------------

  /** How often the present set is in use. */
  function Users(s: State): int {
    if s.live.None? then 0 else HeldBy(s.procs, s.live.value.id)
  }

  /** How often it has been closed by processes that did not use it. */
  function Overs(s: State): int {
    if s.live.None? then 0 else OverBy(s.procs, s.live.value.id)
  }

  /** What a process uses of a set, less what it has closed too often. */
  function Net(q: Proc, id: nat): int {
    var used: int, extra: int := q.held[id], q.over[id];
    used - extra
  }

  function HeldBy(procs: seq<Proc>, id: nat): int {
    Total(seq(|procs|, i requires 0 <= i < |procs| => procs[i].held), id)
  }

  function OverBy(procs: seq<Proc>, id: nat): int {
    Total(seq(|procs|, i requires 0 <= i < |procs| => procs[i].over), id)
  }

  function Total(ms: seq<multiset<nat>>, id: nat): int {
    if ms == [] then 0 else Total(ms[..|ms| - 1], id) + ms[|ms| - 1][id]
  }

  function Sum1(procs: seq<Proc>): int {
    if procs == [] then 0 else Sum1(procs[..|procs| - 1]) + procs[|procs| - 1].adj1
  }

  function Sum2(procs: seq<Proc>): int {
    if procs == [] then 0 else Sum2(procs[..|procs| - 1]) + procs[|procs| - 1].adj2
  }
}
