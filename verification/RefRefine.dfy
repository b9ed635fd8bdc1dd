/** The two-lock table is the one-lock table. */
module RefRefine {
  import opened Values
  import opened RefTable
  import opened RefLocks
  import opened RefInv
  import opened RefSteps
  import opened RefMoves
  import opened RefRuns
  import C = Chains

  // ---- The one-lock view ----------------------------------------------------

  /** A thread's references, less the one to an object it has not published. */
  ghost function Shown(th: Thread): multiset<nat> {
    if Private(th.pc).Some? then th.refs - multiset{Private(th.pc).value} else th.refs
  }

  ghost predicate IsDoomed(s: Sys, j: nat)
    requires Shaped(s) && j < |s.ch.own|
  {
    s.ch.own[j] <= -2 && -2 - s.ch.own[j] < |s.ths| && Doomed(s.ths[-2 - s.ch.own[j]].pc) == Some(j)
  }

  ghost function Ids(s: Sys): map<nat, int>
    requires Shaped(s)
  {
    map j: nat | j < |s.ids| && s.ch.own[j] >= 0 :: s.ids[j]
  }

  ghost function Counts(s: Sys): map<nat, int>
    requires Shaped(s)
  {
    map j: nat | j < |s.counts| && s.ch.own[j] >= 0 :: s.counts[j]
  }

  ghost function Refs(s: Sys): seq<multiset<nat>> {
    seq(|s.ths|, t requires 0 <= t < |s.ths| => Shown(s.ths[t]))
  }

  ghost function DoomedBy(s: Sys): map<nat, nat>
    requires Shaped(s)
  {
    map j: nat | j < |s.ch.own| && IsDoomed(s, j) :: -2 - s.ch.own[j]
  }

  ghost function Freed(s: Sys): set<nat>
    requires Shaped(s)
  {
    set j: nat | j < |s.ch.own| && s.ch.own[j] == FREED
  }

  ghost function Abs(s: Sys): Table
    requires Shaped(s)
  {
    Table(s.ch.lists, Ids(s), Counts(s), Refs(s), DoomedBy(s), Freed(s))
  }

  /** What the step of a thread at this point means for the one-lock table. */
  ghost function EventOf(s: Sys, t: nat): Event
    requires t < |s.ths|
  {
    match s.ths[t].pc
    case AllocHead(j) => if j < |s.ids| then Alloc(s.ids[j], j) else Quiet
    case HoldInc(j) => Hold(j)
    case FindWalk(id, a, cur) => if cur == 0 then Find(id, None) else Quiet
    case FindInc(id, a, j) => Find(id, Some(j))
    case RelDec(j) => Release(j)
    case RelDecBoth(j) => Release(j)
    case CutWrite(j, a, prev) => Release(j)
    case CutFree(j) => Free(j)
    case _ => Quiet
  }

  // ---- Steps the one-lock table does not see --------------------------------

  lemma SameTable(s: Sys, u: Sys)
    requires Shaped(s) && Shaped(u) && u.ch.lists == s.ch.lists && u.ch.own == s.ch.own
    requires u.ids == s.ids && u.counts == s.counts && SameHands(s, u)
    ensures Ids(u) == Ids(s) && Counts(u) == Counts(s) && DoomedBy(u) == DoomedBy(s) && Freed(u) == Freed(s)
  {
    forall j: nat | j < |s.ch.own|
      ensures IsDoomed(u, j) == IsDoomed(s, j)
    {
    }
  }

  lemma RefsAt(s: Sys, t: nat, u: Sys, th: Thread)
    requires t < |s.ths| && u.ths == s.ths[t := th]
    ensures Refs(u) == Refs(s)[t := Shown(th)]
  {
  }

  lemma QuietGo(s: Sys, t: nat, pc: Pc)
    requires Shaped(s) && t < |s.ths| && Private(pc) == Private(s.ths[t].pc) && Doomed(pc) == Doomed(s.ths[t].pc)
    ensures Shaped(Go(s, t, pc)) && Abs(Go(s, t, pc)) == Abs(s)
  {
    var u := Go(s, t, pc);
    SameHandsAt(s, t, u);
    SameTable(s, u);
    RefsAt(s, t, u, u.ths[t]);
    hide SameHands, Ids, Counts, DoomedBy, Freed;
    assert Refs(s)[t := Refs(s)[t]] == Refs(s);
  }

  lemma QuietSetNext(s: Sys, t: nat, j: nat)
    requires Shaped(s) && t < |s.ths| && j < |s.ids| && s.ths[t].pc == AllocNext(j)
    ensures Shaped(SetNext(s, t, j)) && Abs(SetNext(s, t, j)) == Abs(s)
  {
    var u := SetNext(s, t, j);
    SameHandsAt(s, t, u);
    SameTable(s, u);
    RefsAt(s, t, u, u.ths[t]);
    hide SameHands, Ids, Counts, DoomedBy, Freed;
    assert Refs(s)[t := Refs(s)[t]] == Refs(s);
  }

  lemma QuietNew(s: Sys, t: nat, id: int)
    requires Inv(s) && Shaped(s) && t < |s.ths| && s.ths[t].pc == Idle
    ensures Shaped(NewObject(s, t, id)) && Abs(NewObject(s, t, id)) == Abs(s)
  {
    hide Inv, Core, C.Good, Excl, Counted, PcOk;
    InvParts(s, t);
    var u := NewObject(s, t, id);
    RefsAt(s, t, u, u.ths[t]);
    assert Refs(s)[t := Refs(s)[t]] == Refs(s);
    assert s.ths[t].refs + multiset{|s.counts|} - multiset{|s.counts|} == s.ths[t].refs;
    NewDoomed(s, t, id);
    hide OffChain, DoomedBy, Refs;
    assert Ids(u) == Ids(s) && Counts(u) == Counts(s) && Freed(u) == Freed(s);
  }

  lemma NewDoomed(s: Sys, t: nat, id: int)
    requires Shaped(s) && OffChain(s) && t < |s.ths| && s.ths[t].pc == Idle
    ensures Shaped(NewObject(s, t, id)) && DoomedBy(NewObject(s, t, id)) == DoomedBy(s)
  {
    var u := NewObject(s, t, id);
    NoneMine(s, t);
    hide OffChain, IsDoomed;
    forall j: nat | j < |s.ch.own|
      ensures IsDoomed(u, j) == IsDoomed(s, j)
    {
      DoomedElsewhere(s, t, u, j);
    }
    assert !IsDoomed(u, |s.ch.own|) by {
      NotDoomed(u, t, |s.ch.own|);
    }
    DoomedSame(s, u);
  }

  lemma NoneMine(s: Sys, t: nat)
    requires Shaped(s) && OffChain(s) && t < |s.ths| && s.ths[t].pc == Idle
    ensures forall j :: 0 <= j < |s.ch.own| ==> s.ch.own[j] != Tag(t)
  {
    hide C.Shape;
  }

  lemma NotDoomed(u: Sys, t: nat, j: nat)
    requires Shaped(u) && t < |u.ths| && j < |u.ch.own| && u.ch.own[j] == Tag(t) && Doomed(u.ths[t].pc) == None
    ensures !IsDoomed(u, j)
  {
    hide C.Shape, Doomed;
  }

  lemma DoomedElsewhere(s: Sys, t: nat, u: Sys, x: nat)
    requires Shaped(s) && Shaped(u) && x < |s.ch.own| && x < |u.ch.own| && u.ch.own[x] == s.ch.own[x] != Tag(t)
    requires |u.ths| == |s.ths| && forall q :: 0 <= q < |s.ths| && q != t ==> u.ths[q] == s.ths[q]
    ensures IsDoomed(u, x) == IsDoomed(s, x)
  {
    hide C.Shape, Doomed;
  }

  lemma DoomedSame(s: Sys, u: Sys)
    requires Shaped(s) && Shaped(u) && |s.ch.own| <= |u.ch.own|
    requires forall j: nat :: j < |s.ch.own| ==> IsDoomed(u, j) == IsDoomed(s, j)
    requires forall j: nat :: j < |s.ch.own| && IsDoomed(s, j) ==> u.ch.own[j] == s.ch.own[j]
    requires forall j: nat :: |s.ch.own| <= j < |u.ch.own| ==> !IsDoomed(u, j)
    ensures DoomedBy(u) == DoomedBy(s)
  {
    hide IsDoomed;
  }

  // ---- Steps it does see ----------------------------------------------------

  lemma CountSeen(s: Sys, t: nat, u: Sys, j: nat, n: int, th: Thread)
    requires Shaped(s) && t < |s.ths| && Linked(s, j)
    requires u == s.(counts := s.counts[j := n], ths := s.ths[t := th])
    requires Private(th.pc) == None == Private(s.ths[t].pc) && Doomed(th.pc) == None == Doomed(s.ths[t].pc)
    ensures Shaped(u) && Abs(u) == Abs(s).(counts := Counts(s)[j := n], refs := Refs(s)[t := th.refs])
    ensures j in Counts(s) && Counts(s)[j] == s.counts[j] && Refs(s)[t] == s.ths[t].refs && |Refs(s)| == |s.ths|
  {
    SameHandsAt(s, t, u);
    SameTable(s, u.(counts := s.counts));
    RefsAt(s, t, u, th);
    hide SameHands, DoomedBy, Freed;
    assert DoomedBy(u) == DoomedBy(u.(counts := s.counts));
  }

  lemma {:induction false} FirstMatchAt(l: seq<nat>, ids: map<nat, int>, id: int, a: nat)
    requires a <= |l| && (forall b :: 0 <= b < a ==> l[b] in ids && ids[l[b]] != id)
    requires a < |l| ==> l[a] in ids && ids[l[a]] == id
    ensures FirstMatch(l, ids, id) == if a < |l| then Some(l[a]) else None
  {
    if a > 0 {
      FirstMatchAt(l[1..], ids, id, a - 1);
    }
  }

  lemma NoDupTail(l: seq<nat>)
    requires C.NoDup(l) && l != []
    ensures C.NoDup(l[1..]) && forall a :: 0 < a < |l| ==> l[0] != l[a]
  {
  }

  lemma WithoutTail(l: seq<nat>, a: nat)
    requires 0 < a < |l|
    ensures C.Without(l, a) == [l[0]] + C.Without(l[1..], a - 1)
  {
    assert l[..a] == [l[0]] + l[1..][..a - 1];
    assert l[a + 1..] == l[1..][a..];
  }

  lemma {:induction false} MinusAt(l: seq<nat>, a: nat)
    requires a < |l| && C.NoDup(l)
    ensures Minus(l, l[a]) == C.Without(l, a)
  {
    hide C.NoDup, C.Without;
    if a > 0 {
      NoDupTail(l);
      MinusAt(l[1..], a - 1);
      WithoutTail(l, a);
    } else {
      WithoutFirst(l);
    }
  }

  lemma WithoutFirst(l: seq<nat>)
    requires l != []
    ensures C.Without(l, 0) == l[1..]
  {
  }

  lemma FirstMatchFound(s: Sys, id: int, a: nat)
    requires Core(s) && a <= |s.ch.lists[Slot(id)]| && NoneBefore(s, id, a)
    requires a < |s.ch.lists[Slot(id)]| ==> s.ids[s.ch.lists[Slot(id)][a]] == id
    ensures FirstMatch(s.ch.lists[Slot(id)], Ids(s), id)
         == if a < |s.ch.lists[Slot(id)]| then Some(s.ch.lists[Slot(id)][a]) else None
  {
    var l := s.ch.lists[Slot(id)];
    forall b | 0 <= b < |l|
      ensures l[b] in Ids(s) && Ids(s)[l[b]] == s.ids[l[b]]
    {
      assert s.ch.own[l[b]] == Slot(id);
    }
    hide Core, Ids;
    FirstMatchAt(l, Ids(s), id, a);
  }

  lemma SeenHold(s: Sys, t: nat, j: nat)
    requires Core(s) && t < |s.ths| && PcOk(s, t, s.ths[t]) && s.ths[t].pc == HoldInc(j)
    ensures j < |s.counts| && Shaped(Gain(s, t, j, HoldDone(j)))
    ensures DoHold(Abs(s), t, j, Abs(Gain(s, t, j, HoldDone(j))))
  {
    assert Linked(s, j) && j in s.ths[t].refs;
    hide Core, PcOk, Ids, DoomedBy, Freed, Counts, Refs;
    CountSeen(s, t, Gain(s, t, j, HoldDone(j)), j, s.counts[j] + 1, Thread(HoldDone(j), s.ths[t].refs + multiset{j}));
  }

  lemma SeenFind(s: Sys, t: nat, id: int, a: nat, j: nat)
    requires Core(s) && t < |s.ths| && PcOk(s, t, s.ths[t]) && s.ths[t].pc == FindInc(id, a, j)
    ensures j < |s.counts| && Shaped(Gain(s, t, j, FindDone(id, j)))
    ensures DoFind(Abs(s), t, id, Some(j), Abs(Gain(s, t, j, FindDone(id, j))))
  {
    assert FoundAt(s, id, a, j);
    assert Linked(s, j) by {
      assert s.ch.own[s.ch.lists[Slot(id)][a]] == Slot(id);
    }
    FirstMatchFound(s, id, a);
    hide Core, PcOk, Ids, DoomedBy, Freed, Counts, Refs, FirstMatch;
    CountSeen(s, t, Gain(s, t, j, FindDone(id, j)), j, s.counts[j] + 1,
              Thread(FindDone(id, j), s.ths[t].refs + multiset{j}));
  }

  lemma SeenMiss(s: Sys, t: nat, id: int, a: nat)
    requires Core(s) && t < |s.ths| && PcOk(s, t, s.ths[t]) && s.ths[t].pc == FindWalk(id, a, 0)
    ensures DoFind(Abs(s), t, id, None, Abs(s))
  {
    FollowChain(s, Slot(id), a);
    hide Core, C.Good;
    assert a == |s.ch.lists[Slot(id)]|;
    FirstMatchFound(s, id, a);
  }

  lemma SeenRelease(s: Sys, t: nat, j: nat, pc: Pc)
    requires Core(s) && t < |s.ths| && PcOk(s, t, s.ths[t])
    requires (s.ths[t].pc == RelDec(j) && pc == RelDone(j)) || (s.ths[t].pc == RelDecBoth(j) && pc == RelDropObj(j))
    ensures j < |s.counts| && Shaped(Lose(s, t, j, pc))
    ensures DoDrop(Abs(s), t, j, Abs(Lose(s, t, j, pc)))
  {
    LoseParts(s, t, j);
    hide Core, PcOk;
    assert j in Ids(s);
    hide Ids, DoomedBy, Freed, Counts, Refs, Minus, FirstMatch;
    CountSeen(s, t, Lose(s, t, j, pc), j, s.counts[j] - 1, Thread(pc, s.ths[t].refs - multiset{j}));
  }

  lemma {:induction false} SettledDoomed(s: Sys, t: nat, u: Sys, j: nat, th: Thread, v: int)
    requires Shaped(s) && Shaped(u) && OffChain(s) && t < |s.ths| && Mine(s, t, j)
    requires u.ths == s.ths[t := th] && u.ch.own == s.ch.own[j := v] && v > -2
    requires Private(s.ths[t].pc) == Some(j) || Doomed(s.ths[t].pc) == Some(j)
    ensures !IsDoomed(u, j) && forall x: nat :: x < |s.ch.own| && x != j ==> IsDoomed(u, x) == IsDoomed(s, x)
  {
    OnlyOne(s, t, j);
    hide C.Shape, OffChain, Private, Doomed;
    forall x: nat | x < |s.ch.own| && x != j
      ensures IsDoomed(u, x) == IsDoomed(s, x)
    {
      DoomedElsewhere(s, t, u, x);
    }
  }

  /** A published object is on its chain with the one reference of its allocator. */
  lemma SeenPublish(s: Sys, t: nat, j: nat)
    requires Inv(s) && Shaped(s) && t < |s.ths| && s.ths[t].pc == AllocHead(j)
    ensures j < |s.ids| && Shaped(Publish(s, t, j))
    ensures DoAlloc(Abs(s), t, s.ids[j], j, Abs(Publish(s, t, j)))
  {
    InvParts(s, t);
    PublishIs(s, t, j);
    hide Inv, Core, C.Good, Excl, Counted;
    var u := Publish(s, t, j);
    CoreShaped(u);
    assert s.counts[j] == 1;
    hide PcOk;
    SettledDoomed(s, t, u, j, u.ths[t], Slot(s.ids[j]));
    assert !IsDoomed(s, j);
    DoomedSame(s, u);
    RefsAt(s, t, u, u.ths[t]);
    assert s.ths[t].refs - multiset{j} + multiset{j} == s.ths[t].refs;
    PublishMaps(s, t, j);
  }

  lemma PublishMaps(s: Sys, t: nat, j: nat)
    requires Shaped(s) && t < |s.ths| && Mine(s, t, j) && Shaped(Publish(s, t, j)) && s.counts[j] == 1
    requires s.ths[t].pc == AllocHead(j)
    ensures j !in Ids(s) && j !in Freed(s) && j !in DoomedBy(s)
    ensures Ids(Publish(s, t, j)) == Ids(s)[j := s.ids[j]] && Counts(Publish(s, t, j)) == Counts(s)[j := 1]
    ensures Freed(Publish(s, t, j)) == Freed(s)
  {
    hide C.Shape;
  }

  /** The store that takes an object off its chain is its last release. */
  lemma SeenCut(s: Sys, t: nat, j: nat, a: nat, prev: int)
    requires Inv(s) && Shaped(s) && t < |s.ths| && s.ths[t].pc == CutWrite(j, a, prev)
    ensures j < |s.ids| && a < |s.ch.lists[Slot(s.ids[j])]| && 0 <= prev <= |s.ch.ptrs| && Shaped(Cut(s, t, j, a, prev))
    ensures DoRemove(Abs(s), t, j, Abs(Cut(s, t, j, a, prev)))
  {
    InvParts(s, t);
    CutIs(s, t, j, a, prev);
    var u, h := Cut(s, t, j, a, prev), Slot(s.ids[j]);
    CoreShaped(u);
    assert Minus(s.ch.lists[h], j) == u.ch.lists[h] by {
      MinusAt(s.ch.lists[h], a);
    }
    hide Inv, Core, C.Good, Excl, Counted, PcOk, Minus, FirstMatch, C.Unlink;
    CutDoomed(s, t, j, a, prev);
    RefsAt(s, t, u, u.ths[t]);
    CutMaps(s, t, j, a, prev);
    hide OffChain, Ids, DoomedBy, Freed, Counts;
    CutSeen(s, t, j, u);
  }

  /** Put together the parts of a last release. */
  lemma CutSeen(s: Sys, t: nat, j: nat, u: Sys)
    requires Shaped(s) && Shaped(u) && t < |s.ths| && j < |s.ids| && s.counts[j] == 1
    requires j in Ids(s) && j in Counts(s) && Ids(s)[j] == s.ids[j] && Counts(s)[j] == 1 && j in s.ths[t].refs
    requires Private(s.ths[t].pc) == None
    requires u.ch.lists == s.ch.lists[Slot(s.ids[j]) := Minus(s.ch.lists[Slot(s.ids[j])], j)]
    requires Ids(u) == Ids(s) - {j} && Counts(u) == Counts(s) - {j} && Freed(u) == Freed(s)
    requires DoomedBy(u) == DoomedBy(s)[j := t] && Refs(u) == Refs(s)[t := s.ths[t].refs - multiset{j}]
    ensures DoRemove(Abs(s), t, j, Abs(u))
  {
    hide Ids, DoomedBy, Freed, Counts, Minus, FirstMatch;
  }

  lemma CutMaps(s: Sys, t: nat, j: nat, a: nat, prev: int)
    requires Shaped(s) && t < |s.ths| && j < |s.ids| && a < |s.ch.lists[Slot(s.ids[j])]| && 0 <= prev <= |s.ch.ptrs|
    requires Linked(s, j) && s.counts[j] == 1 && Shaped(Cut(s, t, j, a, prev))
    ensures j in Ids(s) && j in Counts(s) && Ids(s)[j] == s.ids[j] && Counts(s)[j] == 1
    ensures Ids(Cut(s, t, j, a, prev)) == Ids(s) - {j} && Counts(Cut(s, t, j, a, prev)) == Counts(s) - {j}
    ensures Freed(Cut(s, t, j, a, prev)) == Freed(s)
  {
    hide C.Shape;
  }

  lemma CutDoomed(s: Sys, t: nat, j: nat, a: nat, prev: int)
    requires Shaped(s) && OffChain(s) && t < |s.ths| && s.ths[t].pc == CutWrite(j, a, prev) && Linked(s, j)
    requires a < |s.ch.lists[Slot(s.ids[j])]| && 0 <= prev <= |s.ch.ptrs| && Shaped(Cut(s, t, j, a, prev))
    ensures DoomedBy(Cut(s, t, j, a, prev)) == DoomedBy(s)[j := t]
  {
    hide C.Shape;
    var u := Cut(s, t, j, a, prev);
    forall x: nat | x < |s.ch.own|
      ensures x != j ==> u.ch.own[x] == s.ch.own[x] && IsDoomed(u, x) == IsDoomed(s, x)
    {
      assert s.ch.own[x] != Tag(t);
    }
    MoreDoomed(s, t, u, j);
  }

  lemma MoreDoomed(s: Sys, t: nat, u: Sys, j: nat)
    requires Shaped(s) && Shaped(u) && |u.ch.own| == |s.ch.own| && j < |s.ch.own|
    requires forall x: nat :: x < |s.ch.own| ==>
      x != j ==> u.ch.own[x] == s.ch.own[x] && IsDoomed(u, x) == IsDoomed(s, x)
    requires IsDoomed(u, j) && u.ch.own[j] == Tag(t)
    ensures DoomedBy(u) == DoomedBy(s)[j := t]
  {
    hide IsDoomed;
  }

  lemma SeenFree(s: Sys, t: nat, j: nat)
    requires Inv(s) && Shaped(s) && t < |s.ths| && s.ths[t].pc == CutFree(j)
    ensures j < |s.ch.own| && Shaped(Dispose(s, t, j))
    ensures DoFree(Abs(s), t, j, Abs(Dispose(s, t, j)))
  {
    hide Inv, Core, C.Good, Excl, OffChain, Counted, PcOk, Ids, DoomedBy, Freed, Counts;
    InvParts(s, t);
    FreeMine(s, t, j);
    var u := Dispose(s, t, j);
    SettledDoomed(s, t, u, j, u.ths[t], FREED);
    FreeDoomed(s, t, j);
    RefsAt(s, t, u, u.ths[t]);
    assert Refs(s)[t := Refs(s)[t]] == Refs(s);
    FreeMaps(s, t, j);
  }

  lemma FreeMine(s: Sys, t: nat, j: nat)
    requires Core(s) && t < |s.ths| && PcOk(s, t, s.ths[t]) && s.ths[t].pc == CutFree(j)
    ensures Mine(s, t, j) && IsDoomed(s, j)
  {
    hide C.Good;
  }

  lemma FreeDoomed(s: Sys, t: nat, j: nat)
    requires Shaped(s) && t < |s.ths| && Mine(s, t, j) && IsDoomed(s, j) && Shaped(Dispose(s, t, j))
    requires !IsDoomed(Dispose(s, t, j), j)
    requires forall x: nat :: x < |s.ch.own| && x != j ==> IsDoomed(Dispose(s, t, j), x) == IsDoomed(s, x)
    ensures j in DoomedBy(s) && DoomedBy(s)[j] == t && DoomedBy(Dispose(s, t, j)) == DoomedBy(s) - {j}
  {
    hide IsDoomed, C.Shape;
  }

  lemma FreeMaps(s: Sys, t: nat, j: nat)
    requires Shaped(s) && t < |s.ths| && Mine(s, t, j) && Shaped(Dispose(s, t, j))
    ensures Ids(Dispose(s, t, j)) == Ids(s) && Counts(Dispose(s, t, j)) == Counts(s)
    ensures Freed(Dispose(s, t, j)) == Freed(s) + {j}
  {
    hide C.Shape;
  }
}
