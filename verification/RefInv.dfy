/** What every interleaving of the two-lock table keeps. */
module RefInv {
  import opened Values
  import opened RefTable
  import opened RefLocks
  import C = Chains

  // ---- Outstanding references -----------------------------------------------

  ghost function All(ths: seq<Thread>): multiset<nat> {
    if ths == [] then multiset{} else All(ths[..|ths| - 1]) + ths[|ths| - 1].refs
  }

  lemma {:induction false} AllUpdate(ths: seq<Thread>, t: nat, th: Thread)
    requires t < |ths|
    ensures ths[t].refs <= All(ths)
    ensures All(ths[t := th]) == All(ths) - ths[t].refs + th.refs
  {
    var n := |ths| - 1;
    if t == n {
      assert ths[t := th][..n] == ths[..n];
    } else {
      AllUpdate(ths[..n], t, th);
      assert ths[t := th][..n] == ths[..n][t := th];
    }
  }

  /** Two threads' references are counted apart. */
  lemma {:induction false} AllTwo(ths: seq<Thread>, t: nat, q: nat)
    requires t < |ths| && q < |ths| && t != q
    ensures ths[t].refs + ths[q].refs <= All(ths)
  {
    AllUpdate(ths, t, ths[t].(refs := multiset{}));
    AllUpdate(ths[t := ths[t].(refs := multiset{})], q, ths[q]);
  }

  // ---- The invariant --------------------------------------------------------

  ghost predicate Core(s: Sys) {
    && Shaped(s) && C.Good(s.ch)
    && (forall j :: 0 <= j < |s.ids| ==> s.ch.offs[j] == j + 1)
    && (forall j :: 0 <= j < |s.ids| && s.ch.own[j] >= 0 ==> s.ch.own[j] == Slot(s.ids[j]))
  }

  ghost predicate Excl(s: Sys) {
    forall t, q :: 0 <= t < |s.ths| && 0 <= q < |s.ths| && t != q ==> Compatible(s.ths[t].pc, s.ths[q].pc)
  }

  ghost predicate OffChain(s: Sys)
    requires Shaped(s)
  {
    forall j :: 0 <= j < |s.ch.own| && s.ch.own[j] <= -2 ==>
      var t := -2 - s.ch.own[j];
      t < |s.ths| && (Private(s.ths[t].pc) == Some(j) || Doomed(s.ths[t].pc) == Some(j))
  }

  /** On its chain, or not published yet. */
  ghost predicate Alive(s: Sys, j: nat)
    requires Shaped(s) && j < |s.ch.own|
  {
    || s.ch.own[j] >= 0
    || (s.ch.own[j] <= -2 && -2 - s.ch.own[j] < |s.ths| && Private(s.ths[-2 - s.ch.own[j]].pc) == Some(j))
  }

  /** The count of a living object is the number of references to it; there is no
      reference to any other. */
  ghost predicate Counted(s: Sys)
    requires Shaped(s)
  {
    && (forall j :: 0 <= j < |s.counts| ==>
          if Alive(s, j) then s.counts[j] == All(s.ths)[j] && s.counts[j] >= 1 else All(s.ths)[j] == 0)
    && (forall j :: j in All(s.ths) ==> j < |s.counts|)
  }

  // ---- What a thread knows --------------------------------------------------

  ghost predicate Mine(s: Sys, t: nat, j: nat)
    requires Shaped(s)
  {
    j < |s.ch.own| && s.ch.own[j] == Tag(t)
  }

  ghost predicate Linked(s: Sys, j: nat)
    requires Shaped(s)
  {
    j < |s.ch.own| && s.ch.own[j] >= 0
  }

  function PrevOf(l: seq<nat>, a: nat): int
    requires a <= |l|
  {
    if a == 0 then 0 else l[a - 1] + 1
  }

  ghost predicate NoneBefore(s: Sys, id: int, a: nat)
    requires Core(s) && a <= |s.ch.lists[Slot(id)]|
  {
    forall b :: 0 <= b < a ==> s.ids[s.ch.lists[Slot(id)][b]] != id
  }

  ghost predicate FoundAt(s: Sys, id: int, a: nat, j: nat)
    requires Core(s)
  {
    var l := s.ch.lists[Slot(id)];
    a < |l| && l[a] == j && s.ids[j] == id && NoneBefore(s, id, a)
  }

  /** The last reference to j is t's, and t has both locks. */
  ghost predicate Last(s: Sys, t: nat, th: Thread, j: nat)
    requires Core(s)
  {
    j in th.refs && j < |s.counts| && s.counts[j] == 1
  }

  ghost predicate PcOk(s: Sys, t: nat, th: Thread)
    requires Core(s)
  {
    match th.pc
    case Idle => true
    case AllocLock(j) => Mine(s, t, j) && j in th.refs && s.counts[j] == 1
    case AllocNext(j) => Mine(s, t, j) && j in th.refs && s.counts[j] == 1
    case AllocHead(j) => Mine(s, t, j) && j in th.refs && s.counts[j] == 1 && s.ch.ptrs[j] == s.ch.heads[Slot(s.ids[j])]
    case AllocObj(j) => j in th.refs && Linked(s, j)
    case AllocDrop(j) => Linked(s, j)
    case AllocDone(j) => Linked(s, j)
    case HoldLock(j) => j in th.refs
    case HoldInc(j) => j in th.refs && Linked(s, j)
    case HoldDone(j) => Linked(s, j)
    case FindLock(id) => true
    case FindHead(id) => true
    case FindWalk(id, a, cur) =>
      && a <= |s.ch.lists[Slot(id)]| && cur == C.PtrTo(s.ch.offs, s.ch.lists[Slot(id)], a) && NoneBefore(s, id, a)
    case FindObj(id, a, j) => FoundAt(s, id, a, j)
    case FindInc(id, a, j) => FoundAt(s, id, a, j)
    case FindDone(id, j) => Linked(s, j)
    case FindDrop(id, found) => true
    case RelLock(j) => j in th.refs
    case RelTest(j) => j in th.refs && Linked(s, j)
    case RelDec(j) => j in th.refs && Linked(s, j) && s.counts[j] != 1
    case RelDone(j) => Linked(s, j)
    case RelBack(j) => j in th.refs && Linked(s, j)
    case RelHash(j) => j in th.refs
    case RelObj(j) => j in th.refs
    case RelRetest(j) => j in th.refs && Linked(s, j)
    case RelDecBoth(j) => j in th.refs && Linked(s, j) && s.counts[j] != 1
    case RelDropObj(j) => Linked(s, j)
    case RelDropHash(j) => true
    case CutHead(j) => Last(s, t, th, j) && Linked(s, j)
    case CutWalk(j, a, cur) =>
      && Last(s, t, th, j) && Linked(s, j)
      && a < |s.ch.lists[Slot(s.ids[j])]| && cur == s.ch.lists[Slot(s.ids[j])][a] + 1
      && forall b :: 0 <= b <= a ==> s.ch.lists[Slot(s.ids[j])][b] != j
    case CutWrite(j, a, prev) =>
      && Last(s, t, th, j) && Linked(s, j)
      && a < |s.ch.lists[Slot(s.ids[j])]| && s.ch.lists[Slot(s.ids[j])][a] == j
      && prev == PrevOf(s.ch.lists[Slot(s.ids[j])], a)
    case CutDropHash(j) => Mine(s, t, j)
    case CutDropObj(j) => Mine(s, t, j)
    case CutFree(j) => Mine(s, t, j)
  }

  ghost predicate PcsOk(s: Sys)
    requires Core(s)
  {
    forall t :: 0 <= t < |s.ths| ==> PcOk(s, t, s.ths[t])
  }

  ghost predicate Inv(s: Sys) {
    Core(s) && Excl(s) && OffChain(s) && Counted(s) && PcsOk(s)
  }

  // ---- A reference keeps an object on its chain -----------------------------

  /** An object with a reference is living, and its count is not zero. */
  lemma ReferencedIsAlive(s: Sys, t: nat, j: nat)
    requires Inv(s) && t < |s.ths| && j in s.ths[t].refs
    ensures Shaped(s) && j < |s.ch.own| && Alive(s, j) && s.counts[j] == All(s.ths)[j] >= 1
  {
    AllUpdate(s.ths, t, s.ths[t]);
    hide Core, PcsOk, Excl;
    assert j in All(s.ths);
  }

  /** Unless it is its own allocation, it is on its chain. */
  lemma ReferencedIsLinked(s: Sys, t: nat, j: nat)
    requires Inv(s) && t < |s.ths| && j in s.ths[t].refs && Private(s.ths[t].pc) != Some(j)
    ensures Shaped(s) && Linked(s, j)
  {
    hide Core, Excl, OffChain, Counted, PcOk, All;
    ReferencedIsAlive(s, t, j);
    if s.ch.own[j] < 0 {
      var q := -2 - s.ch.own[j];
      assert PcOk(s, q, s.ths[q]);
      PrivateIs(s, q, j);
      AllTwo(s.ths, t, q);
    }
  }

  lemma PrivateIs(s: Sys, q: nat, j: nat)
    requires Core(s) && q < |s.ths| && PcOk(s, q, s.ths[q]) && Private(s.ths[q].pc) == Some(j)
    ensures Mine(s, q, j) && j in s.ths[q].refs && j < |s.counts| && s.counts[j] == 1
  {
    hide C.Good;
  }
}
