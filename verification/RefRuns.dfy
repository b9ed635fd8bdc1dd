/** Every run of the two-lock table. */
module RefRuns {
  import opened Values
  import opened RefTable
  import opened RefLocks
  import opened RefInv
  import opened RefSteps
  import opened RefMoves
  import C = Chains

  // ---- Walking a chain ------------------------------------------------------

  lemma FollowChain(s: Sys, h: nat, a: nat)
    requires Core(s) && h < NHASH && a <= |s.ch.lists[h]|
    ensures s.ch.heads[h] == C.PtrTo(s.ch.offs, s.ch.lists[h], 0)
    ensures var cur := C.PtrTo(s.ch.offs, s.ch.lists[h], a);
      if a == |s.ch.lists[h]| then cur == 0
      else var j := s.ch.lists[h][a];
        j < |s.ids| && cur == j + 1 && s.ch.own[j] == h && s.ch.ptrs[j] == C.PtrTo(s.ch.offs, s.ch.lists[h], a + 1)
  {
    C.Follow(s.ch, h, a);
    hide C.Good;
  }

  lemma FindHeadStep(s: Sys, t: nat, id: int)
    requires Inv(s) && t < |s.ths| && s.ths[t].pc == FindHead(id)
    ensures Shaped(s) && Inv(Go(s, t, FindWalk(id, 0, s.ch.heads[Slot(id)])))
  {
    InvParts(s, t);
    FollowChain(s, Slot(id), 0);
    hide Inv, Core, C.Good, Excl, OffChain, Counted;
    Walk(s, t, FindWalk(id, 0, s.ch.heads[Slot(id)]));
  }

  lemma FindWalkStep(s: Sys, t: nat, id: int, a: nat, cur: int, u: Sys)
    requires Inv(s) && Shaped(s) && t < |s.ths| && s.ths[t].pc == FindWalk(id, a, cur) && NextFind(s, t, u)
    ensures Inv(u)
  {
    hide Inv, Core, C.Good, Excl, OffChain, Counted, PcOk;
    InvParts(s, t);
    FindWalkOk(s, t, id, a, cur, u.ths[t].pc);
    Walk(s, t, u.ths[t].pc);
  }

  lemma FindWalkOk(s: Sys, t: nat, id: int, a: nat, cur: int, pc: Pc)
    requires Core(s) && t < |s.ths| && PcOk(s, t, s.ths[t]) && s.ths[t].pc == FindWalk(id, a, cur)
    requires 0 <= cur <= |s.ids|
    requires pc == if cur == 0 then FindDrop(id, None)
                   else if s.ids[cur - 1] == id then FindObj(id, a, cur - 1)
                   else FindWalk(id, a + 1, s.ch.ptrs[cur - 1])
    ensures PcOk(s, t, s.ths[t].(pc := pc))
  {
    FollowChain(s, Slot(id), a);
    hide Core, C.Good;
  }

  lemma OnList(s: Sys, j: nat)
    requires Core(s) && Linked(s, j)
    ensures j in s.ch.lists[Slot(s.ids[j])]
  {
  }

  lemma CutHeadStep(s: Sys, t: nat, j: nat, u: Sys)
    requires Inv(s) && Shaped(s) && t < |s.ths| && s.ths[t].pc == CutHead(j) && NextCut(s, t, u)
    ensures Inv(u)
  {
    InvParts(s, t);
    OnList(s, j);
    FollowChain(s, Slot(s.ids[j]), 0);
    hide Inv, Core, C.Good, Excl, OffChain, Counted;
    Walk(s, t, u.ths[t].pc);
  }

  lemma CutWalkOk(s: Sys, t: nat, j: nat, a: nat, cur: int, pc: Pc)
    requires Core(s) && t < |s.ths| && PcOk(s, t, s.ths[t]) && s.ths[t].pc == CutWalk(j, a, cur)
    requires 0 < cur <= |s.ids|
    requires pc == if s.ch.ptrs[cur - 1] == j + 1 then CutWrite(j, a + 1, cur)
      else CutWalk(j, a + 1, s.ch.ptrs[cur - 1])
    ensures PcOk(s, t, s.ths[t].(pc := pc))
  {
    OnList(s, j);
    FollowChain(s, Slot(s.ids[j]), a);
    hide Core, C.Good;
    var l := s.ch.lists[Slot(s.ids[j])];
    assert a + 1 < |l|;
    FollowChain(s, Slot(s.ids[j]), a + 1);
  }

  lemma CutWalkStep(s: Sys, t: nat, j: nat, a: nat, cur: int, u: Sys)
    requires Inv(s) && Shaped(s) && t < |s.ths| && s.ths[t].pc == CutWalk(j, a, cur) && NextCut(s, t, u)
    ensures Inv(u)
  {
    hide Inv, Core, C.Good, Excl, OffChain, Counted, PcOk;
    InvParts(s, t);
    CutWalkOk(s, t, j, a, cur, u.ths[t].pc);
    Walk(s, t, u.ths[t].pc);
  }

  // ---- One step -------------------------------------------------------------

  /** y follows x, and needs nothing x does not know. */
  predicate Follows(x: Pc, y: Pc) {
    || (x.AllocLock? && y == AllocNext(x.j)) || (x.AllocObj? && y == AllocDrop(x.j))
    || (x.AllocDrop? && y == AllocDone(x.j))
    || (y.Idle? && !Private(x).Some? && !Doomed(x).Some?)
    || (x.Idle? && y.FindLock?) || (x.FindLock? && y.FindHead?) || (x.FindDone? && y.FindDrop?)
    || (x.FindObj? && y == FindInc(x.id, x.a, x.j))
    || (x.RelTest? && y == RelBack(x.j)) || (x.RelBack? && y == RelHash(x.j)) || (x.RelHash? && y == RelObj(x.j))
    || (x.RelDropObj? && y == RelDropHash(x.j))
    || (x.CutDropHash? && y == CutDropObj(x.j)) || (x.CutDropObj? && y == CutFree(x.j))
  }

  lemma FollowsOk(s: Sys, t: nat, pc: Pc)
    requires Core(s) && t < |s.ths| && PcOk(s, t, s.ths[t]) && Follows(s.ths[t].pc, pc)
    ensures PcOk(s, t, s.ths[t].(pc := pc))
    ensures Private(pc) == Private(s.ths[t].pc) && Doomed(pc) == Doomed(s.ths[t].pc)
  {
    hide Core;
  }

  lemma FollowStep(s: Sys, t: nat, pc: Pc)
    requires Inv(s) && t < |s.ths| && Follows(s.ths[t].pc, pc)
    requires CanEnter(s, t, pc) || LocksWithin(pc, s.ths[t].pc)
    ensures Inv(Go(s, t, pc))
  {
    hide Inv, Core, C.Good, Excl, OffChain, Counted, CanEnter, PcOk, Follows;
    InvParts(s, t);
    FollowsOk(s, t, pc);
    if LocksWithin(pc, s.ths[t].pc) {
      Walk(s, t, pc);
    } else {
      Move(s, t, pc);
    }
  }

  lemma InvNextAlloc(s: Sys, t: nat, u: Sys)
    requires Inv(s) && Shaped(s) && t < |s.ths| && Allocating(s.ths[t].pc) && NextAlloc(s, t, u)
    ensures Inv(u)
  {
    hide Inv, Shaped, CanEnter, Publish, SetNext, Go;
    match s.ths[t].pc
    case AllocLock(j) => FollowStep(s, t, AllocNext(j));
    case AllocNext(j) => AllocNextStep(s, t, j);
    case AllocHead(j) => PublishStep(s, t, j);
    case AllocObj(j) => FollowStep(s, t, AllocDrop(j));
    case AllocDrop(j) => FollowStep(s, t, AllocDone(j));
    case AllocDone(j) => FollowStep(s, t, Idle);
  }

  lemma InvNextFind(s: Sys, t: nat, u: Sys)
    requires Inv(s) && Shaped(s) && t < |s.ths| && Finding(s.ths[t].pc) && NextFind(s, t, u)
    ensures Inv(u)
  {
    hide Inv, Shaped, CanEnter, Gain, Go;
    match s.ths[t].pc
    case FindLock(id) => FollowStep(s, t, FindHead(id));
    case FindHead(id) => FindHeadStep(s, t, id);
    case FindWalk(id, a, cur) => FindWalkStep(s, t, id, a, cur, u);
    case FindObj(id, a, j) => FollowStep(s, t, FindInc(id, a, j));
    case FindInc(id, a, j) => GainStep(s, t, j, FindDone(id, j));
    case FindDone(id, j) => FollowStep(s, t, FindDrop(id, Some(j)));
    case FindDrop(id, found) => FollowStep(s, t, Idle);
  }

  lemma InvNextCut(s: Sys, t: nat, u: Sys)
    requires Inv(s) && Shaped(s) && t < |s.ths| && Cutting(s.ths[t].pc) && NextCut(s, t, u)
    ensures Inv(u)
  {
    hide Inv, Shaped, CanEnter, Cut, Dispose, Go;
    match s.ths[t].pc
    case CutHead(j) => CutHeadStep(s, t, j, u);
    case CutWalk(j, a, cur) => CutWalkStep(s, t, j, a, cur, u);
    case CutWrite(j, a, prev) => CutStep(s, t, j, a, prev);
    case CutDropHash(j) => FollowStep(s, t, CutDropObj(j));
    case CutDropObj(j) => FollowStep(s, t, CutFree(j));
    case CutFree(j) => DisposeStep(s, t, j);
  }

  predicate Counting(pc: Pc) {
    !Allocating(pc) && !Finding(pc) && !Cutting(pc)
  }

  lemma IdleStep(s: Sys, t: nat, u: Sys)
    requires Inv(s) && Shaped(s) && t < |s.ths| && s.ths[t].pc == Idle && NextCount(s, t, u)
    ensures Inv(u)
  {
    hide Inv, Shaped, CanEnter, NewObject, Go;
    if id :| u == NewObject(s, t, id) {
      NewObjectStep(s, t, id);
    } else if id :| u == Go(s, t, FindLock(id)) {
      FollowStep(s, t, FindLock(id));
    } else {
      var j :| j in s.ths[t].refs && (u == Go(s, t, HoldLock(j)) || u == Go(s, t, RelLock(j)));
      BeginStep(s, t, j);
    }
  }

  lemma BeginStep(s: Sys, t: nat, j: nat)
    requires Inv(s) && t < |s.ths| && s.ths[t].pc == Idle && j in s.ths[t].refs
    ensures Inv(Go(s, t, HoldLock(j))) && Inv(Go(s, t, RelLock(j)))
  {
    hide Inv, Core, C.Good, Excl, OffChain, Counted, PcOk, Go;
    InvParts(s, t);
    BeginOk(s, t, j);
    Walk(s, t, HoldLock(j));
    Walk(s, t, RelLock(j));
  }

  lemma BeginOk(s: Sys, t: nat, j: nat)
    requires Core(s) && t < |s.ths| && j in s.ths[t].refs
    ensures PcOk(s, t, s.ths[t].(pc := HoldLock(j))) && PcOk(s, t, s.ths[t].(pc := RelLock(j)))
  {
    hide Core;
  }

  /** A thread with a reference may lock the object. */
  lemma LockStep(s: Sys, t: nat, u: Sys)
    requires Inv(s) && Shaped(s) && t < |s.ths| && Counting(s.ths[t].pc) && NextCount(s, t, u)
    requires s.ths[t].pc.HoldLock? || s.ths[t].pc.RelLock? || s.ths[t].pc.RelObj?
    ensures Inv(u)
  {
    InvParts(s, t);
    ReferencedIsLinked(s, t, s.ths[t].pc.j);
    hide Inv, Core, C.Good, Excl, OffChain, Counted, CanEnter;
    Move(s, t, u.ths[t].pc);
  }

  lemma TestStep(s: Sys, t: nat, u: Sys)
    requires Inv(s) && Shaped(s) && t < |s.ths| && Counting(s.ths[t].pc) && NextCount(s, t, u)
    requires s.ths[t].pc.RelTest? || s.ths[t].pc.RelRetest?
    ensures Inv(u)
  {
    hide Inv, Core, C.Good, Excl, OffChain, Counted, CanEnter;
    InvParts(s, t);
    Walk(s, t, u.ths[t].pc);
  }

  lemma InvNextCount(s: Sys, t: nat, u: Sys)
    requires Inv(s) && Shaped(s) && t < |s.ths| && Counting(s.ths[t].pc) && NextCount(s, t, u)
    ensures Inv(u)
  {
    hide Inv, Shaped, CanEnter, NewObject, Go, Gain, Lose;
    match s.ths[t].pc
    case Idle => IdleStep(s, t, u);
    case HoldLock(j) => LockStep(s, t, u);
    case HoldInc(j) => GainStep(s, t, j, HoldDone(j));
    case HoldDone(j) => FollowStep(s, t, Idle);
    case RelLock(j) => LockStep(s, t, u);
    case RelTest(j) => TestStep(s, t, u);
    case RelDec(j) => LoseStep(s, t, j, RelDone(j));
    case RelDone(j) => FollowStep(s, t, Idle);
    case RelBack(j) => FollowStep(s, t, RelHash(j));
    case RelHash(j) => FollowStep(s, t, RelObj(j));
    case RelObj(j) => LockStep(s, t, u);
    case RelRetest(j) => TestStep(s, t, u);
    case RelDecBoth(j) => LoseStep(s, t, j, RelDropObj(j));
    case RelDropObj(j) => FollowStep(s, t, RelDropHash(j));
    case RelDropHash(j) => FollowStep(s, t, Idle);
  }

  /** Every step of every thread keeps the invariant. */
  lemma InvNext(s: Sys, t: nat, u: Sys)
    requires Inv(s) && Shaped(s) && t < |s.ths| && Next(s, t, u)
    ensures Inv(u)
  {
    hide Inv, NextAlloc, NextFind, NextCut, NextCount;
    if Allocating(s.ths[t].pc) {
      InvNextAlloc(s, t, u);
    } else if Finding(s.ths[t].pc) {
      InvNextFind(s, t, u);
    } else if Cutting(s.ths[t].pc) {
      InvNextCut(s, t, u);
    } else {
      InvNextCount(s, t, u);
    }
  }
}
