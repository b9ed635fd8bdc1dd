/** The same table under two kinds of lock: the hash lock for chains and links, and
    one lock per object for its count. A step is one lock, unlock, load or
    store; a pointer is an object number plus 1, and 0 is null. */
module RefLocks {
  import opened Values
  import opened RefTable
  import C = Chains

  /** Where a thread stands. */
  datatype Pc =
    | Idle
    // foo_alloc
    | AllocLock(j: nat)
    | AllocNext(j: nat)
    | AllocHead(j: nat)
    | AllocObj(j: nat)
    | AllocDrop(j: nat)
    | AllocDone(j: nat)
    // foo_hold
    | HoldLock(j: nat)
    | HoldInc(j: nat)
    | HoldDone(j: nat)
    // foo_find; a is the position of the walk, cur the pointer it has
    | FindLock(id: int)
    | FindHead(id: int)
    | FindWalk(id: int, a: nat, cur: int)
    | FindObj(id: int, a: nat, j: nat)
    | FindInc(id: int, a: nat, j: nat)
    | FindDone(id: int, j: nat)
    | FindDrop(id: int, found: Option<nat>)
    // foo_rele
    | RelLock(j: nat)
    | RelTest(j: nat)
    | RelDec(j: nat)
    | RelDone(j: nat)
    | RelBack(j: nat)
    | RelHash(j: nat)
    | RelObj(j: nat)
    | RelRetest(j: nat)
    | RelDecBoth(j: nat)
    | RelDropObj(j: nat)
    | RelDropHash(j: nat)
    // taking the object off its chain and freeing it
    | CutHead(j: nat)
    | CutWalk(j: nat, a: nat, cur: int)
    | CutWrite(j: nat, a: nat, prev: int)
    | CutDropHash(j: nat)
    | CutDropObj(j: nat)
    | CutFree(j: nat)

  datatype Thread = Thread(pc: Pc, refs: multiset<nat>)

  datatype Sys = Sys(ch: C.Chains, ids: seq<int>, counts: seq<int>, ths: seq<Thread>)

  // ---- Locks ----------------------------------------------------------------

  predicate HasHash(pc: Pc) {
    || pc.AllocNext? || pc.AllocHead? || pc.AllocObj? || pc.AllocDrop?
    || pc.FindHead? || pc.FindWalk? || pc.FindObj? || pc.FindInc? || pc.FindDone? || pc.FindDrop?
    || pc.RelObj? || pc.RelRetest? || pc.RelDecBoth? || pc.RelDropObj? || pc.RelDropHash?
    || pc.CutHead? || pc.CutWalk? || pc.CutWrite? || pc.CutDropHash?
  }

  predicate LocksObject(pc: Pc) {
    || pc.AllocDrop? || pc.AllocDone? || pc.HoldInc? || pc.HoldDone? || pc.FindInc? || pc.FindDone?
    || pc.RelTest? || pc.RelDec? || pc.RelDone? || pc.RelBack?
    || pc.RelRetest? || pc.RelDecBoth? || pc.RelDropObj?
    || pc.CutHead? || pc.CutWalk? || pc.CutWrite? || pc.CutDropHash? || pc.CutDropObj?
  }

  function HasObj(pc: Pc): Option<nat> {
    if LocksObject(pc) then Some(pc.j) else None
  }

  predicate Compatible(x: Pc, y: Pc) {
    !(HasHash(x) && HasHash(y)) && !(HasObj(x).Some? && HasObj(x) == HasObj(y))
  }

  ghost predicate CanEnter(s: Sys, t: nat, pc: Pc) {
    forall q :: 0 <= q < |s.ths| && q != t ==> Compatible(pc, s.ths[q].pc)
  }

  // ---- Objects off the chains -----------------------------------------------

  /** own[j] of an object only thread t knows or will free. */
  function Tag(t: nat): int { -2 - t }

  const FREED := -1

  function Private(pc: Pc): Option<nat> {
    if pc.AllocLock? || pc.AllocNext? || pc.AllocHead? then Some(pc.j) else None
  }

  function Doomed(pc: Pc): Option<nat> {
    if pc.CutDropHash? || pc.CutDropObj? || pc.CutFree? then Some(pc.j) else None
  }

  // ---- Steps ----------------------------------------------------------------

  function Go(s: Sys, t: nat, pc: Pc): Sys
    requires t < |s.ths|
  {
    s.(ths := s.ths[t := s.ths[t].(pc := pc)])
  }

  /** Thread t gains or gives up one reference to j. */
  function Gain(s: Sys, t: nat, j: nat, pc: Pc): Sys
    requires t < |s.ths| && j < |s.counts|
  {
    s.(counts := s.counts[j := s.counts[j] + 1],
       ths := s.ths[t := Thread(pc, s.ths[t].refs + multiset{j})])
  }

  function Lose(s: Sys, t: nat, j: nat, pc: Pc): Sys
    requires t < |s.ths| && j < |s.counts|
  {
    s.(counts := s.counts[j := s.counts[j] - 1],
       ths := s.ths[t := Thread(pc, s.ths[t].refs - multiset{j})])
  }

  /** malloc, then the fields nobody else can see yet. */
  ghost function NewObject(s: Sys, t: nat, id: int): Sys
    requires t < |s.ths|
  {
    var j := |s.counts|;
    s.(ch := C.Extend(s.ch, 0, j + 1, Tag(t)), ids := s.ids + [id], counts := s.counts + [1],
       ths := s.ths[t := Thread(AllocLock(j), s.ths[t].refs + multiset{j})])
  }

  /** `fp->f_next = fh[idx]`. */
  ghost function SetNext(s: Sys, t: nat, j: nat): Sys
    requires t < |s.ths| && C.Shape(s.ch) && |s.ch.lists| == NHASH && j < |s.ch.own| == |s.ids|
  {
    Go(s.(ch := s.ch.(ptrs := s.ch.ptrs[j := s.ch.heads[Slot(s.ids[j])]])), t, AllocHead(j))
  }

  /** `fh[idx] = fp`. */
  ghost function Publish(s: Sys, t: nat, j: nat): Sys
    requires t < |s.ths| && C.Shape(s.ch) && |s.ch.lists| == NHASH && j < |s.ch.own| == |s.ids|
  {
    var h := Slot(s.ids[j]);
    Go(s.(ch := s.ch.(heads := s.ch.heads[h := s.ch.offs[j]], own := s.ch.own[j := h],
                      lists := s.ch.lists[h := [j] + s.ch.lists[h]])), t, AllocObj(j))
  }

  /** `fh[idx] = fp->f_next` (prev 0) or `tfp->f_next = fp->f_next`: with this store
      the last reference is gone. */
  ghost function Cut(s: Sys, t: nat, j: nat, a: nat, prev: int): Sys
    requires t < |s.ths| && C.Shape(s.ch) && |s.ch.lists| == NHASH && j < |s.ch.own| == |s.ids|
    requires a < |s.ch.lists[Slot(s.ids[j])]| && 0 <= prev <= |s.ch.ptrs|
  {
    var h, v := Slot(s.ids[j]), s.ch.ptrs[j];
    var c := if prev == 0 then s.ch.(heads := s.ch.heads[h := v]) else s.ch.(ptrs := s.ch.ptrs[prev - 1 := v]);
    s.(ch := c.(own := s.ch.own[j := Tag(t)], lists := s.ch.lists[h := C.Without(s.ch.lists[h], a)]),
       ths := s.ths[t := Thread(CutDropHash(j), s.ths[t].refs - multiset{j})])
  }

  ghost function Dispose(s: Sys, t: nat, j: nat): Sys
    requires t < |s.ths| && j < |s.ch.own|
  {
    Go(s.(ch := s.ch.(own := s.ch.own[j := FREED])), t, Idle)
  }

  ghost predicate Shaped(s: Sys) {
    C.Shape(s.ch) && |s.ch.lists| == NHASH && |s.ch.own| == |s.ids| == |s.counts|
  }

  predicate Allocating(pc: Pc) {
    pc.AllocLock? || pc.AllocNext? || pc.AllocHead? || pc.AllocObj? || pc.AllocDrop? || pc.AllocDone?
  }

  predicate Finding(pc: Pc) {
    || pc.FindLock? || pc.FindHead? || pc.FindWalk? || pc.FindObj? || pc.FindInc? || pc.FindDone? || pc.FindDrop?
  }

  predicate Cutting(pc: Pc) {
    pc.CutHead? || pc.CutWalk? || pc.CutWrite? || pc.CutDropHash? || pc.CutDropObj? || pc.CutFree?
  }

  ghost predicate NextAlloc(s: Sys, t: nat, u: Sys)
    requires Shaped(s) && t < |s.ths| && Allocating(s.ths[t].pc)
  {
    match s.ths[t].pc
    case AllocLock(j) => CanEnter(s, t, AllocNext(j)) && u == Go(s, t, AllocNext(j))
    case AllocNext(j) => j < |s.ids| && u == SetNext(s, t, j)
    case AllocHead(j) => j < |s.ids| && u == Publish(s, t, j)
    case AllocObj(j) => CanEnter(s, t, AllocDrop(j)) && u == Go(s, t, AllocDrop(j))
    case AllocDrop(j) => u == Go(s, t, AllocDone(j))
    case AllocDone(j) => u == Go(s, t, Idle)
  }

  ghost predicate NextFind(s: Sys, t: nat, u: Sys)
    requires Shaped(s) && t < |s.ths| && Finding(s.ths[t].pc)
  {
    match s.ths[t].pc
    case FindLock(id) => CanEnter(s, t, FindHead(id)) && u == Go(s, t, FindHead(id))
    case FindHead(id) => u == Go(s, t, FindWalk(id, 0, s.ch.heads[Slot(id)]))
    case FindWalk(id, a, cur) =>
      && 0 <= cur <= |s.ids|
      && u == Go(s, t, if cur == 0 then FindDrop(id, None)
                       else if s.ids[cur - 1] == id then FindObj(id, a, cur - 1)
                       else FindWalk(id, a + 1, s.ch.ptrs[cur - 1]))
    case FindObj(id, a, j) => CanEnter(s, t, FindInc(id, a, j)) && u == Go(s, t, FindInc(id, a, j))
    case FindInc(id, a, j) => j < |s.counts| && u == Gain(s, t, j, FindDone(id, j))
    case FindDone(id, j) => u == Go(s, t, FindDrop(id, Some(j)))
    case FindDrop(id, found) => u == Go(s, t, Idle)
  }

  ghost predicate NextCut(s: Sys, t: nat, u: Sys)
    requires Shaped(s) && t < |s.ths| && Cutting(s.ths[t].pc)
  {
    match s.ths[t].pc
    case CutHead(j) =>
      && j < |s.ids|
      && var tfp := s.ch.heads[Slot(s.ids[j])];
         u == Go(s, t, if tfp == j + 1 then CutWrite(j, 0, 0) else CutWalk(j, 0, tfp))
    case CutWalk(j, a, cur) =>
      && 0 < cur <= |s.ids|
      && u == Go(s, t, if s.ch.ptrs[cur - 1] == j + 1 then CutWrite(j, a + 1, cur)
                       else CutWalk(j, a + 1, s.ch.ptrs[cur - 1]))
    case CutWrite(j, a, prev) =>
      && j < |s.ids| && a < |s.ch.lists[Slot(s.ids[j])]| && 0 <= prev <= |s.ch.ptrs| && u == Cut(s, t, j, a, prev)
    case CutDropHash(j) => u == Go(s, t, CutDropObj(j))
    case CutDropObj(j) => u == Go(s, t, CutFree(j))
    case CutFree(j) => j < |s.ch.own| && u == Dispose(s, t, j)
  }

  ghost predicate NextCount(s: Sys, t: nat, u: Sys)
    requires Shaped(s) && t < |s.ths|
    requires !Allocating(s.ths[t].pc) && !Finding(s.ths[t].pc) && !Cutting(s.ths[t].pc)
  {
    match s.ths[t].pc
    case Idle =>
      || (exists id :: u == NewObject(s, t, id))
      || (exists id :: u == Go(s, t, FindLock(id)))
      || (exists j :: j in s.ths[t].refs && (u == Go(s, t, HoldLock(j)) || u == Go(s, t, RelLock(j))))
    case HoldLock(j) => CanEnter(s, t, HoldInc(j)) && u == Go(s, t, HoldInc(j))
    case HoldInc(j) => j < |s.counts| && u == Gain(s, t, j, HoldDone(j))
    case HoldDone(j) => u == Go(s, t, Idle)
    case RelLock(j) => CanEnter(s, t, RelTest(j)) && u == Go(s, t, RelTest(j))
    case RelTest(j) => j < |s.counts| && u == Go(s, t, if s.counts[j] == 1 then RelBack(j) else RelDec(j))
    case RelDec(j) => j < |s.counts| && u == Lose(s, t, j, RelDone(j))
    case RelDone(j) => u == Go(s, t, Idle)
    case RelBack(j) => u == Go(s, t, RelHash(j))
    case RelHash(j) => CanEnter(s, t, RelObj(j)) && u == Go(s, t, RelObj(j))
    case RelObj(j) => CanEnter(s, t, RelRetest(j)) && u == Go(s, t, RelRetest(j))
    case RelRetest(j) => j < |s.counts| && u == Go(s, t, if s.counts[j] != 1 then RelDecBoth(j) else CutHead(j))
    case RelDecBoth(j) => j < |s.counts| && u == Lose(s, t, j, RelDropObj(j))
    case RelDropObj(j) => u == Go(s, t, RelDropHash(j))
    case RelDropHash(j) => u == Go(s, t, Idle)
  }

  /** Thread t takes one step. A thread holds or releases only what it has a
      reference to. */
  ghost predicate Next(s: Sys, t: nat, u: Sys)
    requires Shaped(s) && t < |s.ths|
  {
    if Allocating(s.ths[t].pc) then NextAlloc(s, t, u)
    else if Finding(s.ths[t].pc) then NextFind(s, t, u)
    else if Cutting(s.ths[t].pc) then NextCut(s, t, u)
    else NextCount(s, t, u)
  }
}
