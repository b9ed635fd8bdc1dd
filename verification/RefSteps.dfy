/** Every step of every thread keeps the invariant. */
module RefSteps {
  import opened Values
  import opened RefTable
  import opened RefLocks
  import opened RefInv
  import C = Chains

  // ---- What one thread's step leaves alone ----------------------------------

  ghost predicate Frame(s: Sys, t: nat, u: Sys)
    requires Shaped(s) && Shaped(u) && t < |s.ths|
  {
    var pc := s.ths[t].pc;
    && |u.ths| == |s.ths| && (forall q :: 0 <= q < |s.ths| && q != t ==> u.ths[q] == s.ths[q])
    && |s.ids| <= |u.ids| && (forall j :: 0 <= j < |s.ids| ==> u.ids[j] == s.ids[j])
    && (!HasHash(pc) ==> u.ch.lists == s.ch.lists && u.ch.heads == s.ch.heads)
    && (forall j :: 0 <= j < |s.ids| && HasObj(pc) != Some(j) ==> u.counts[j] == s.counts[j])
    && (forall j :: 0 <= j < |s.ids| && s.ch.own[j] >= 0 && !(HasHash(pc) && HasObj(pc) == Some(j)) ==>
          u.ch.own[j] == s.ch.own[j])
    && (forall j :: 0 <= j < |s.ids| && s.ch.own[j] < 0 && s.ch.own[j] != Tag(t) ==>
          u.ch.own[j] == s.ch.own[j] && u.ch.ptrs[j] == s.ch.ptrs[j])
  }

  /** Chains do not change under a thread that has the hash lock. */
  lemma ChainStable(s: Sys, t: nat, u: Sys, q: nat, h: nat, a: nat)
    requires Core(s) && Core(u) && t < |s.ths| && Frame(s, t, u) && Excl(s)
    requires q < |s.ths| && q != t && HasHash(s.ths[q].pc) && h < NHASH && a <= |s.ch.lists[h]|
    ensures u.ch.lists[h] == s.ch.lists[h] && u.ch.heads[h] == s.ch.heads[h]
    ensures C.PtrTo(u.ch.offs, u.ch.lists[h], a) == C.PtrTo(s.ch.offs, s.ch.lists[h], a)
    ensures forall b :: 0 <= b < |s.ch.lists[h]| ==>
      s.ch.lists[h][b] < |s.ids| && u.ids[s.ch.lists[h][b]] == s.ids[s.ch.lists[h][b]]
  {
    assert Compatible(s.ths[t].pc, s.ths[q].pc);
    forall b | 0 <= b < |s.ch.lists[h]|
      ensures s.ch.lists[h][b] < |s.ids|
    {
      assert s.ch.own[s.ch.lists[h][b]] == h;
    }
  }

  /** An object under a thread's lock keeps its count and its place. */
  lemma LockedStable(s: Sys, t: nat, u: Sys, q: nat, j: nat)
    requires Shaped(s) && Shaped(u) && t < |s.ths| && Frame(s, t, u) && Excl(s)
    requires q < |s.ths| && q != t && HasObj(s.ths[q].pc) == Some(j) && Linked(s, j)
    ensures Linked(u, j) && u.counts[j] == s.counts[j] && u.ids[j] == s.ids[j]
  {
    assert Compatible(s.ths[t].pc, s.ths[q].pc);
  }

  lemma HashedStable(s: Sys, t: nat, u: Sys, q: nat, j: nat)
    requires Shaped(s) && Shaped(u) && t < |s.ths| && Frame(s, t, u) && Excl(s)
    requires q < |s.ths| && q != t && HasHash(s.ths[q].pc) && Linked(s, j)
    ensures Linked(u, j)
  {
    assert Compatible(s.ths[t].pc, s.ths[q].pc);
  }

  lemma MineStable(s: Sys, t: nat, u: Sys, q: nat, j: nat)
    requires Core(s) && Shaped(u) && t < |s.ths| && Frame(s, t, u) && q != t && Mine(s, q, j)
    requires PcOk(s, t, s.ths[t])
    ensures Mine(u, q, j) && u.counts[j] == s.counts[j] && u.ids[j] == s.ids[j] && u.ch.ptrs[j] == s.ch.ptrs[j]
  {
    hide C.Good;
    if HasObj(s.ths[t].pc).Some? {
      LocksOwn(s, t);
    }
  }

  /** A thread locks an object that is on its chain or its own. */
  lemma LocksOwn(s: Sys, t: nat)
    requires Core(s) && t < |s.ths| && PcOk(s, t, s.ths[t]) && HasObj(s.ths[t].pc).Some?
    ensures var j := HasObj(s.ths[t].pc).value; Linked(s, j) || Mine(s, t, j)
  {
    var pc := s.ths[t].pc;
    if pc.FindInc? {
      assert s.ch.own[s.ch.lists[Slot(pc.id)][pc.a]] == Slot(pc.id);
    }
  }

  lemma StableAlloc(s: Sys, t: nat, u: Sys, q: nat)
    requires Core(s) && Core(u) && t < |s.ths| && Frame(s, t, u) && Excl(s) && PcOk(s, t, s.ths[t])
    requires q < |s.ths| && q != t && PcOk(s, q, s.ths[q]) && Allocating(s.ths[q].pc)
    ensures PcOk(u, q, s.ths[q])
  {
    hide Frame, Excl, C.Good;
    var pc := s.ths[q].pc;
    if Private(pc).Some? {
      MineStable(s, t, u, q, pc.j);
      if pc.AllocHead? {
        ChainStable(s, t, u, q, Slot(s.ids[pc.j]), 0);
      }
    } else if pc.AllocObj? {
      HashedStable(s, t, u, q, pc.j);
    } else {
      LockedStable(s, t, u, q, pc.j);
    }
  }

  lemma StableFind(s: Sys, t: nat, u: Sys, q: nat)
    requires Core(s) && Core(u) && t < |s.ths| && Frame(s, t, u) && Excl(s)
    requires q < |s.ths| && q != t && PcOk(s, q, s.ths[q]) && Finding(s.ths[q].pc)
    ensures PcOk(u, q, s.ths[q])
  {
    hide Frame, Excl, C.Good;
    var pc := s.ths[q].pc;
    match pc
    case FindWalk(id, a, cur) => ChainStable(s, t, u, q, Slot(id), a);
    case FindObj(id, a, j) => ChainStable(s, t, u, q, Slot(id), a);
    case FindInc(id, a, j) => ChainStable(s, t, u, q, Slot(id), a);
    case FindDone(id, j) => LockedStable(s, t, u, q, j);
    case _ =>
  }

  lemma StableCut(s: Sys, t: nat, u: Sys, q: nat)
    requires Core(s) && Core(u) && t < |s.ths| && Frame(s, t, u) && Excl(s) && PcOk(s, t, s.ths[t])
    requires q < |s.ths| && q != t && PcOk(s, q, s.ths[q]) && Cutting(s.ths[q].pc)
    ensures PcOk(u, q, s.ths[q])
  {
    hide Frame, Excl, C.Good;
    var pc := s.ths[q].pc;
    if Doomed(pc).Some? {
      MineStable(s, t, u, q, pc.j);
    } else {
      LockedStable(s, t, u, q, pc.j);
      ChainStable(s, t, u, q, Slot(s.ids[pc.j]), 0);
    }
  }

  lemma StableCount(s: Sys, t: nat, u: Sys, q: nat)
    requires Core(s) && Core(u) && t < |s.ths| && Frame(s, t, u) && Excl(s)
    requires q < |s.ths| && q != t && PcOk(s, q, s.ths[q])
    requires !Allocating(s.ths[q].pc) && !Finding(s.ths[q].pc) && !Cutting(s.ths[q].pc)
    ensures PcOk(u, q, s.ths[q])
  {
    hide Frame, Excl, C.Good;
    var pc := s.ths[q].pc;
    if HasObj(pc).Some? {
      LockedStable(s, t, u, q, pc.j);
    }
  }

  /** A step of t leaves what every other thread knows true. */
  lemma Stable(s: Sys, t: nat, u: Sys, q: nat)
    requires Inv(s) && Core(u) && t < |s.ths| && Frame(s, t, u) && q < |s.ths| && q != t
    ensures PcOk(u, q, s.ths[q])
  {
    assert PcOk(s, q, s.ths[q]) && PcOk(s, t, s.ths[t]);
    hide Core, Frame, Excl, PcOk, Counted, OffChain;
    if Allocating(s.ths[q].pc) {
      StableAlloc(s, t, u, q);
    } else if Finding(s.ths[q].pc) {
      StableFind(s, t, u, q);
    } else if Cutting(s.ths[q].pc) {
      StableCut(s, t, u, q);
    } else {
      StableCount(s, t, u, q);
    }
  }

  lemma Preserve(s: Sys, t: nat, u: Sys)
    requires Inv(s) && Core(u) && t < |s.ths| == |u.ths| && Frame(s, t, u)
    requires CanEnter(s, t, u.ths[t].pc) && PcOk(u, t, u.ths[t]) && OffChain(u) && Counted(u)
    ensures Inv(u)
  {
    FrameThreads(s, t, u);
    assert Excl(u) by {
      forall x, y | 0 <= x < |u.ths| && 0 <= y < |u.ths| && x != y
        ensures Compatible(u.ths[x].pc, u.ths[y].pc)
      {
        assert Compatible(s.ths[x].pc, s.ths[y].pc);
        assert Compatible(u.ths[t].pc, s.ths[if x == t then y else x].pc) || (x != t && y != t);
      }
    }
    forall q | 0 <= q < |u.ths|
      ensures PcOk(u, q, u.ths[q])
    {
      if q != t {
        hide Core, Frame, CanEnter, PcOk, Excl;
        Stable(s, t, u, q);
      }
    }
  }

  lemma FrameThreads(s: Sys, t: nat, u: Sys)
    requires Shaped(s) && Shaped(u) && t < |s.ths| && Frame(s, t, u)
    ensures |u.ths| == |s.ths| && forall q :: 0 <= q < |s.ths| && q != t ==> u.ths[q] == s.ths[q]
  {
  }

  // ---- Steps that change only the program point -----------------------------

  predicate LocksWithin(x: Pc, y: Pc) {
    (HasHash(x) ==> HasHash(y)) && (HasObj(x).Some? ==> HasObj(x) == HasObj(y))
  }

  lemma EnterWithin(s: Sys, t: nat, pc: Pc)
    requires Excl(s) && t < |s.ths| && LocksWithin(pc, s.ths[t].pc)
    ensures CanEnter(s, t, pc)
  {
    forall q | 0 <= q < |s.ths| && q != t
      ensures Compatible(pc, s.ths[q].pc)
    {
      assert Compatible(s.ths[t].pc, s.ths[q].pc);
    }
  }

  /** Threads keep what only they know of. */
  ghost predicate SameHands(s: Sys, u: Sys) {
    |u.ths| == |s.ths| && forall q :: 0 <= q < |s.ths| ==>
      Private(u.ths[q].pc) == Private(s.ths[q].pc) && Doomed(u.ths[q].pc) == Doomed(s.ths[q].pc)
  }

  lemma AliveSame(s: Sys, u: Sys, j: nat)
    requires Shaped(s) && Shaped(u) && SameHands(s, u) && u.ch.own == s.ch.own && j < |s.ch.own|
    ensures Alive(u, j) == Alive(s, j)
  {
  }

  lemma OffChainSame(s: Sys, u: Sys)
    requires Shaped(s) && Shaped(u) && SameHands(s, u) && u.ch.own == s.ch.own && OffChain(s)
    ensures OffChain(u)
  {
    forall j | 0 <= j < |u.ch.own| && u.ch.own[j] <= -2
      ensures var t := -2 - u.ch.own[j];
        t < |u.ths| && (Private(u.ths[t].pc) == Some(j) || Doomed(u.ths[t].pc) == Some(j))
    {
      var t := -2 - u.ch.own[j];
      assert Private(s.ths[t].pc) == Some(j) || Doomed(s.ths[t].pc) == Some(j);
    }
  }

  lemma CountedSame(s: Sys, u: Sys)
    requires Shaped(s) && Shaped(u) && SameHands(s, u) && u.ch.own == s.ch.own && Counted(s)
    requires u.counts == s.counts && All(u.ths) == All(s.ths)
    ensures Counted(u)
  {
    hide Alive, All, SameHands;
    forall j | 0 <= j < |u.counts|
      ensures if Alive(u, j) then u.counts[j] == All(u.ths)[j] && u.counts[j] >= 1 else All(u.ths)[j] == 0
    {
      AliveSame(s, u, j);
    }
  }

  lemma MoveCounts(s: Sys, t: nat, pc: Pc)
    requires Core(s) && OffChain(s) && Counted(s) && t < |s.ths|
    requires Private(pc) == Private(s.ths[t].pc) && Doomed(pc) == Doomed(s.ths[t].pc)
    ensures var u := Go(s, t, pc); Core(u) && OffChain(u) && Counted(u)
  {
    hide C.Good, All, OffChain, Counted;
    var u := Go(s, t, pc);
    AllUpdate(s.ths, t, u.ths[t]);
    OffChainSame(s, u);
    CountedSame(s, u);
  }

  lemma PcOkAnywhere(s: Sys, u: Sys, t: nat, th: Thread)
    requires Core(s) && Core(u) && PcOk(s, t, th) && u == s.(ths := u.ths)
    ensures PcOk(u, t, th)
  {
    hide C.Good;
  }

  lemma Move(s: Sys, t: nat, pc: Pc)
    requires Inv(s) && t < |s.ths| && CanEnter(s, t, pc) && PcOk(s, t, s.ths[t].(pc := pc))
    requires Private(pc) == Private(s.ths[t].pc) && Doomed(pc) == Doomed(s.ths[t].pc)
    ensures Inv(Go(s, t, pc))
  {
    hide Core, PcOk, Excl, OffChain, Counted, CanEnter;
    var u := Go(s, t, pc);
    MoveCounts(s, t, pc);
    PcOkAnywhere(s, u, t, u.ths[t]);
    CoreShaped(s);
    CoreShaped(u);
    Preserve(s, t, u);
  }

  lemma CoreShaped(s: Sys)
    requires Core(s)
    ensures Shaped(s) && C.Good(s.ch)
  {
  }

  lemma Walk(s: Sys, t: nat, pc: Pc)
    requires Inv(s) && t < |s.ths| && LocksWithin(pc, s.ths[t].pc) && PcOk(s, t, s.ths[t].(pc := pc))
    requires Private(pc) == Private(s.ths[t].pc) && Doomed(pc) == Doomed(s.ths[t].pc)
    ensures Inv(Go(s, t, pc))
  {
    EnterWithin(s, t, pc);
    hide Inv;
    Move(s, t, pc);
  }
}
