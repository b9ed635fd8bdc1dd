/** Several processes on one database. A step is one lock, unlock, read or write
    call; a pointer is a record number plus 1, since records never move, and 0
    ends a list. Locks are held from the step that takes them to the step that
    drops them, so a process's program point says what it holds. */
module DbShared {
  import opened Values
  import opened Ascii
  import opened IndexCodec
  import opened IndexFile
  import opened Layout
  import opened DbStore
  import C = Chains

  type Key = seq<byte>

  /** Where a process stands. op is the call it executes; a is the position in the
      list it walks, prev the cell it came through (0 for the head of the list),
      cur the pointer it will follow; j is the record it works on. */
  datatype Pc =
    | Idle
    | WantChain(op: Op)
    | FindHead(op: Op)
    | FindRec(op: Op, a: nat, prev: int, cur: int)
    | FetchDat(op: Op, j: nat)
    | Ret(op: Op, reply: Reply, n: nat)
    // _db_dodelete
    | DelWant(op: Op, j: nat, a: nat, prev: int, save: int)
    | DelDat(op: Op, j: nat, a: nat, prev: int, save: int)
    | DelFree(op: Op, j: nat, a: nat, prev: int, save: int, n: nat)
    | DelIdx(op: Op, j: nat, a: nat, prev: int, save: int, n: nat, fp: int)
    | DelHead(op: Op, j: nat, a: nat, prev: int, save: int, n: nat)
    | DelPrev(op: Op, j: nat, a: nat, prev: int, save: int, n: nat)
    | DelUnlock(op: Op, n: nat)
    // db_store of a new key
    | ReadHead(op: Op)
    | FFWant(op: Op, ptr: int)
    | FFHead(op: Op, ptr: int)
    | FFRec(op: Op, ptr: int, a: nat, prev: int, cur: int)
    | FFTake(op: Op, ptr: int, a: nat, prev: int, j: nat)
    | FFUnlock(op: Op, ptr: int, found: Option<nat>)
    | ReDat(op: Op, ptr: int, j: nat)
    | ReIdx(op: Op, ptr: int, j: nat)
    // appending; repl when an old record of the key was deleted first
    | ReHead(op: Op)
    | DatWant(op: Op, ptr: int, repl: bool)
    | DatApp(op: Op, ptr: int, repl: bool)
    | DatUnlock(op: Op, ptr: int, repl: bool, off: nat)
    | IdxWant(op: Op, ptr: int, repl: bool, off: nat)
    | IdxApp(op: Op, ptr: int, repl: bool, off: nat)
    | IdxUnlock(op: Op, repl: bool, j: nat)
    | LinkHead(op: Op, repl: bool, j: nat)
    // replacing data of the same length
    | OverDat(op: Op, j: nat)
    // err_dump or err_quit
    | Dead

  /** A completed call, in the order in which the calls took effect. */
  datatype Entry = Entry(pid: nat, op: Op, reply: Reply)

  datatype State = State(
    ch: C.Chains, recs: seq<Rec>, at: map<Key, nat>, dat: seq<byte>, procs: seq<Pc>, log: seq<Entry>)

  // ---- Locks ----------------------------------------------------------------

  predicate InCall(pc: Pc) { !pc.Idle? && !pc.Dead? && !pc.WantChain? }

  /** The chain byte a process has locked. */
  function Chain(pc: Pc): Option<nat> {
    if InCall(pc) then Some(ChainOf(pc.op.key)) else None
  }

  /** `db_fetch` takes a read lock, the others a write lock. */
  predicate Writes(pc: Pc) { InCall(pc) && !pc.op.DoFetch? }

  predicate HoldsFree(pc: Pc) {
    || pc.DelDat? || pc.DelFree? || pc.DelIdx? || pc.DelHead? || pc.DelPrev? || pc.DelUnlock?
    || pc.FFHead? || pc.FFRec? || pc.FFTake? || pc.FFUnlock?
  }

  predicate HoldsDat(pc: Pc) { pc.DatApp? || pc.DatUnlock? }

  predicate HoldsIdx(pc: Pc) { pc.IdxApp? || pc.IdxUnlock? }

  /** Two processes may be at these points at the same time. */
  predicate Compatible(x: Pc, y: Pc) {
    && !(Chain(x).Some? && Chain(x) == Chain(y) && (Writes(x) || Writes(y)))
    && !(HoldsFree(x) && HoldsFree(y)) && !(HoldsDat(x) && HoldsDat(y)) && !(HoldsIdx(x) && HoldsIdx(y))
  }

  /** Process p can go to this point without waiting for a lock. */
  ghost predicate CanEnter(s: State, p: nat, pc: Pc) {
    forall q :: 0 <= q < |s.procs| && q != p ==> Compatible(pc, s.procs[q])
  }

  // ---- What a process has in hand -------------------------------------------

  /** own[j] of a record that process p took off a list or appended. */
  function Tag(p: nat): int { -2 - p }

  const LOST := -1

  function Held(pc: Pc): Option<nat> {
    match pc
    case DelFree(_, j, _, _, _, _) => Some(j)
    case DelIdx(_, j, _, _, _, _, _) => Some(j)
    case DelHead(_, j, _, _, _, _) => Some(j)
    case FFUnlock(_, _, found) => found
    case ReDat(_, _, j) => Some(j)
    case ReIdx(_, _, j) => Some(j)
    case IdxUnlock(_, _, j) => Some(j)
    case LinkHead(_, _, j) => Some(j)
    case _ => None
  }

  /** A data record that was appended and that no index record names yet. */
  function Pending(pc: Pc): Option<nat> {
    match pc
    case DatUnlock(_, _, _, off) => Some(off)
    case IdxWant(_, _, _, off) => Some(off)
    case IdxApp(_, _, _, off) => Some(off)
    case _ => None
  }

  /** The chain whose pointers are out of date while a record leaves it. */
  function Breaks(pc: Pc): Option<nat> {
    if pc.DelFree? || pc.DelIdx? || pc.DelHead? || pc.DelPrev? then Some(ChainOf(pc.op.key)) else None
  }

  /** The key of a replacement whose old record is gone and whose new one is not
      there yet. */
  function Flux(pc: Pc): Option<Key> {
    match pc
    case DelFree(op, _, _, _, _, _) => if op.DoStore? then Some(op.key) else None
    case DelIdx(op, _, _, _, _, _, _) => if op.DoStore? then Some(op.key) else None
    case DelHead(op, _, _, _, _, _) => if op.DoStore? then Some(op.key) else None
    case DelPrev(op, _, _, _, _, _) => if op.DoStore? then Some(op.key) else None
    case DelUnlock(op, _) => if op.DoStore? then Some(op.key) else None
    case ReHead(op) => Some(op.key)
    case DatWant(op, _, repl) => if repl then Some(op.key) else None
    case DatApp(op, _, repl) => if repl then Some(op.key) else None
    case DatUnlock(op, _, repl, _) => if repl then Some(op.key) else None
    case IdxWant(op, _, repl, _) => if repl then Some(op.key) else None
    case IdxApp(op, _, repl, _) => if repl then Some(op.key) else None
    case IdxUnlock(op, repl, _) => if repl then Some(op.key) else None
    case LinkHead(op, repl, _) => if repl then Some(op.key) else None
    case _ => None
  }

  // ---- Steps ----------------------------------------------------------------

  function Go(s: State, p: nat, pc: Pc): State
    requires p < |s.procs|
  {
    s.(procs := s.procs[p := pc])
  }

  /** The call takes effect with this reply. */
  function Finish(s: State, p: nat, op: Op, reply: Reply): State
    requires p < |s.procs|
  {
    s.(procs := s.procs[p := Ret(op, reply, |s.log|)], log := s.log + [Entry(p, op, reply)])
  }

  predicate RegionIn(dat: seq<byte>, r: Rec) {
    0 <= r.datoff && 0 < r.datlen && r.datoff + r.datlen <= |dat|
  }

  /** `_db_writeptr` to the head of list i (prev 0) or to a record. */
  ghost function WritePtr(s: State, i: nat, prev: int, v: int): State
    requires i < |s.ch.heads| && 0 <= prev <= |s.recs| && |s.ch.ptrs| == |s.recs|
  {
    if prev == 0 then s.(ch := s.ch.(heads := s.ch.heads[i := v]))
    else s.(ch := s.ch.(ptrs := s.ch.ptrs[prev - 1 := v]),
            recs := s.recs[prev - 1 := s.recs[prev - 1].(ptr := v)])
  }

  ghost function WriteDat(s: State, off: nat, data: seq<byte>): State
    requires off <= |s.dat|
  {
    s.(dat := Splice(s.dat, off, data + [NEWLINE]))
  }

  /** `_db_writeidx` over record j. */
  ghost function WriteIdx(s: State, j: nat, key: Key, ptr: int): State
    requires j < |s.recs| == |s.ch.ptrs|
  {
    s.(ch := s.ch.(ptrs := s.ch.ptrs[j := ptr]), recs := s.recs[j := s.recs[j].(key := key, ptr := ptr)])
  }

  function OnMiss(s: State, p: nat, op: Op): State
    requires p < |s.procs|
  {
    match op
    case DoFetch(_) => Finish(s, p, op, Value(None))
    case DoDelete(_) => Finish(s, p, op, Code(-1))
    case DoStore(_, _, flag) => if flag == REPLACE then Finish(s, p, op, Code(-1)) else Go(s, p, ReadHead(op))
  }

  function OnHit(s: State, p: nat, op: Op, j: nat, a: nat, prev: int): State
    requires p < |s.procs| && j < |s.recs|
  {
    var r := s.recs[j];
    match op
    case DoFetch(_) => Go(s, p, FetchDat(op, j))
    case DoDelete(_) => Go(s, p, DelWant(op, j, a, prev, r.ptr))
    case DoStore(_, data, flag) =>
      if flag == INSERT then Finish(s, p, op, Code(1))
      else if r.datlen == |data| + 1 then Go(s, p, OverDat(op, j))
      else Go(s, p, DelWant(op, j, a, prev, r.ptr))
  }

  /** A process at DelDat has found record j at position a of its chain. From its
      first write on the record is its own, and a `db_delete` has taken
      effect. */
  ghost function BlankData(s: State, p: nat, op: Op, j: nat, a: nat, prev: int, save: int): State
    requires p < |s.procs| && j < |s.recs| && RegionIn(s.dat, s.recs[j])
    requires C.Shape(s.ch) && C.Placed(s.ch) && |s.ch.lists| == NLISTS && a < |s.ch.lists[ChainOf(op.key)]|
  {
    var t := WriteDat(s, s.recs[j].datoff, Blanks(s.recs[j].datlen - 1));
    t.(ch := C.Drop(s.ch, ChainOf(op.key), a, Tag(p)), at := s.at - {op.key},
       log := if op.DoDelete? then s.log + [Entry(p, op, Code(0))] else s.log,
       procs := s.procs[p := DelFree(op, j, a, prev, save, |s.log|)])
  }

  /** The head of the free list is pointed at record j. */
  ghost function PushFree(s: State, j: nat): State
    requires C.Shape(s.ch) && |s.ch.lists| == NLISTS && j < |s.ch.own|
  {
    s.(ch := s.ch.(heads := s.ch.heads[FREE := s.ch.offs[j]], own := s.ch.own[j := FREE],
                   lists := s.ch.lists[FREE := [j] + s.ch.lists[FREE]]))
  }

  /** The free record at position a is taken off the free list. */
  ghost function TakeFree(s: State, p: nat, a: nat, prev: int, j: nat): State
    requires C.Shape(s.ch) && |s.ch.lists| == NLISTS && a < |s.ch.lists[FREE]|
    requires 0 <= prev <= |s.recs| && |s.ch.ptrs| == |s.recs| && j < |s.recs|
  {
    var t := WritePtr(s, FREE, prev, s.recs[j].ptr);
    t.(ch := t.ch.(own := s.ch.own[j := Tag(p)], lists := s.ch.lists[FREE := C.Without(s.ch.lists[FREE], a)]))
  }

  ghost function AppendIdx(s: State, p: nat, r: Rec): State {
    s.(ch := C.Extend(s.ch, r.ptr, |s.recs| + 1, Tag(p)), recs := s.recs + [r])
  }

  /** The head of the chain is pointed at record j: a store of a new record takes
      effect. */
  ghost function Link(s: State, p: nat, op: Op, j: nat): State
    requires p < |s.procs| && C.Shape(s.ch) && |s.ch.lists| == NLISTS && j < |s.ch.own|
  {
    var i := ChainOf(op.key);
    var t := s.(ch := s.ch.(heads := s.ch.heads[i := s.ch.offs[j]], own := s.ch.own[j := i],
                            lists := s.ch.lists[i := [j] + s.ch.lists[i]]),
                at := s.at[op.key := j]);
    Finish(t, p, op, Code(0))
  }

  /** `err_dump` or `err_quit` while a new record is appended: what the process
      has in hand is on no list from now on, and a replacement has lost the old
      binding. */
  ghost function Die(s: State, p: nat): State
    requires p < |s.procs|
  {
    var pc := s.procs[p];
    var t := Go(s, p, Dead);
    var u := if Held(pc).Some? && Held(pc).value < |s.ch.own|
             then t.(ch := t.ch.(own := t.ch.own[Held(pc).value := LOST])) else t;
    if Flux(pc).Some? then u.(log := u.log + [Entry(p, DoDelete(Flux(pc).value), Code(0))]) else u
  }

  /** What `db_store` checks before it takes any lock. */
  ghost predicate Startable(op: Op) {
    Legal(op) && (op.DoStore? ==> op.flag != OTHER && DataLengthOk(op.data))
  }

  // The program points of the four parts of a call.

  predicate Deletes(pc: Pc) {
    pc.DelWant? || pc.DelDat? || pc.DelFree? || pc.DelIdx? || pc.DelHead? || pc.DelPrev? || pc.DelUnlock?
  }

  predicate Inserts(pc: Pc) {
    pc.FFWant? || pc.FFHead? || pc.FFRec? || pc.FFTake? || pc.FFUnlock? || pc.ReDat? || pc.ReIdx?
  }

  predicate Appends(pc: Pc) {
    || pc.DatWant? || pc.DatApp? || pc.DatUnlock? || pc.IdxWant? || pc.IdxApp? || pc.IdxUnlock? || pc.LinkHead?
  }

  ghost predicate NextFind(s: State, p: nat, t: State)
    requires p < |s.procs| && C.Shape(s.ch) && C.Placed(s.ch) && |s.ch.lists| == NLISTS && |s.ch.ptrs| == |s.recs|
    requires !Deletes(s.procs[p]) && !Inserts(s.procs[p]) && !Appends(s.procs[p])
  {
    match s.procs[p]
    case Idle =>
      |t.procs| == |s.procs| && t.procs[p].WantChain? && Startable(t.procs[p].op) && t == Go(s, p, t.procs[p])
    case WantChain(op) => CanEnter(s, p, FindHead(op)) && t == Go(s, p, FindHead(op))
    case FindHead(op) => t == Go(s, p, FindRec(op, 0, 0, s.ch.heads[ChainOf(op.key)]))
    case FindRec(op, a, prev, cur) =>
      && 0 <= cur <= |s.recs|
      && t == if cur == 0 then OnMiss(s, p, op)
              else if s.recs[cur - 1].key == op.key then OnHit(s, p, op, cur - 1, a, prev)
              else Go(s, p, FindRec(op, a + 1, cur, s.recs[cur - 1].ptr))
    case FetchDat(op, j) =>
      j < |s.recs| && RegionIn(s.dat, s.recs[j]) && t == Finish(s, p, op, Value(Some(Data(s.dat, s.recs[j]))))
    case Ret(_, _, _) => t == Go(s, p, Idle)
    case ReadHead(op) => t == Go(s, p, FFWant(op, s.ch.heads[ChainOf(op.key)]))
    case ReHead(op) => t == Go(s, p, DatWant(op, s.ch.heads[ChainOf(op.key)], true))
    case OverDat(op, j) =>
      && op.DoStore? && j < |s.recs| && RegionIn(s.dat, s.recs[j])
      && t == Finish(WriteDat(s, s.recs[j].datoff, op.data), p, op, Code(0))
    case Dead => false
  }

  ghost predicate NextDelete(s: State, p: nat, t: State)
    requires p < |s.procs| && C.Shape(s.ch) && C.Placed(s.ch) && |s.ch.lists| == NLISTS && |s.ch.ptrs| == |s.recs|
    requires Deletes(s.procs[p])
  {
    match s.procs[p]
    case DelWant(op, j, a, prev, save) =>
      CanEnter(s, p, DelDat(op, j, a, prev, save)) && t == Go(s, p, DelDat(op, j, a, prev, save))
    case DelDat(op, j, a, prev, save) =>
      && j < |s.recs| && RegionIn(s.dat, s.recs[j]) && a < |s.ch.lists[ChainOf(op.key)]|
      && t == BlankData(s, p, op, j, a, prev, save)
    case DelFree(op, j, a, prev, save, n) => t == Go(s, p, DelIdx(op, j, a, prev, save, n, s.ch.heads[FREE]))
    case DelIdx(op, j, a, prev, save, n, fp) =>
      j < |s.recs| && t == Go(WriteIdx(s, j, Blanks(|s.recs[j].key|), fp), p, DelHead(op, j, a, prev, save, n))
    case DelHead(op, j, a, prev, save, n) =>
      j < |s.recs| && t == Go(PushFree(s, j), p, DelPrev(op, j, a, prev, save, n))
    case DelPrev(op, j, a, prev, save, n) =>
      0 <= prev <= |s.recs| && t == Go(WritePtr(s, ChainOf(op.key), prev, save), p, DelUnlock(op, n))
    case DelUnlock(op, n) => t == Go(s, p, if op.DoDelete? then Ret(op, Code(0), n) else ReHead(op))
  }

  ghost predicate NextInsert(s: State, p: nat, t: State)
    requires p < |s.procs| && C.Shape(s.ch) && C.Placed(s.ch) && |s.ch.lists| == NLISTS && |s.ch.ptrs| == |s.recs|
    requires Inserts(s.procs[p])
  {
    match s.procs[p]
    case FFWant(op, ptr) => CanEnter(s, p, FFHead(op, ptr)) && t == Go(s, p, FFHead(op, ptr))
    case FFHead(op, ptr) => t == Go(s, p, FFRec(op, ptr, 0, 0, s.ch.heads[FREE]))
    case FFRec(op, ptr, a, prev, cur) =>
      && op.DoStore? && 0 <= cur <= |s.recs|
      && t == Go(s, p,
           if cur == 0 then FFUnlock(op, ptr, None)
           else if |s.recs[cur - 1].key| == |op.key| && s.recs[cur - 1].datlen == |op.data| + 1
           then FFTake(op, ptr, a, prev, cur - 1)
           else FFRec(op, ptr, a + 1, cur, s.recs[cur - 1].ptr))
    case FFTake(op, ptr, a, prev, j) =>
      && a < |s.ch.lists[FREE]| && 0 <= prev <= |s.recs| && j < |s.recs|
      && t == Go(TakeFree(s, p, a, prev, j), p, FFUnlock(op, ptr, Some(j)))
    case FFUnlock(op, ptr, found) =>
      t == Go(s, p, if found.Some? then ReDat(op, ptr, found.value) else DatWant(op, ptr, false))
    case ReDat(op, ptr, j) =>
      && op.DoStore? && j < |s.recs| && RegionIn(s.dat, s.recs[j])
      && t == Go(WriteDat(s, s.recs[j].datoff, op.data), p, ReIdx(op, ptr, j))
    case ReIdx(op, ptr, j) =>
      j < |s.recs| && t == Go(WriteIdx(s, j, op.key, ptr), p, LinkHead(op, false, j))
  }

  ghost predicate NextAppend(s: State, p: nat, t: State)
    requires p < |s.procs| && C.Shape(s.ch) && C.Placed(s.ch) && |s.ch.lists| == NLISTS && |s.ch.ptrs| == |s.recs|
    requires Appends(s.procs[p])
  {
    match s.procs[p]
    case DatWant(op, ptr, repl) => CanEnter(s, p, DatApp(op, ptr, repl)) && t == Go(s, p, DatApp(op, ptr, repl))
    case DatApp(op, ptr, repl) =>
      op.DoStore? && t == Go(WriteDat(s, |s.dat|, op.data), p, DatUnlock(op, ptr, repl, |s.dat|))
    case DatUnlock(op, ptr, repl, off) => t == Go(s, p, IdxWant(op, ptr, repl, off))
    case IdxWant(op, ptr, repl, off) =>
      || t == Die(s, p)
      || (CanEnter(s, p, IdxApp(op, ptr, repl, off)) && t == Go(s, p, IdxApp(op, ptr, repl, off)))
    case IdxApp(op, ptr, repl, off) =>
      && op.DoStore?
      && t == Go(AppendIdx(s, p, Rec(ptr, op.key, off, |op.data| + 1)), p, IdxUnlock(op, repl, |s.recs|))
    case IdxUnlock(op, repl, j) => t == Go(s, p, LinkHead(op, repl, j))
    case LinkHead(op, repl, j) => t == Die(s, p) || (j < |s.recs| && t == Link(s, p, op, j))
  }

  /** Process p takes one step from s to t. */
  ghost predicate Next(s: State, p: nat, t: State)
    requires p < |s.procs| && C.Shape(s.ch) && C.Placed(s.ch) && |s.ch.lists| == NLISTS && |s.ch.ptrs| == |s.recs|
  {
    if Deletes(s.procs[p]) then NextDelete(s, p, t)
    else if Inserts(s.procs[p]) then NextInsert(s, p, t)
    else if Appends(s.procs[p]) then NextAppend(s, p, t)
    else NextFind(s, p, t)
  }
}
