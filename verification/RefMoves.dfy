/** The steps of the two-lock table that change counts or chains. */
module RefMoves {
  import opened Values
  import opened RefTable
  import opened RefLocks
  import opened RefInv
  import opened RefSteps
  import C = Chains

  lemma InvParts(s: Sys, t: nat)
    requires Inv(s) && t < |s.ths|
    ensures Core(s) && Shaped(s) && C.Good(s.ch) && Excl(s) && OffChain(s) && Counted(s) && PcOk(s, t, s.ths[t])
  {
  }

  // ---- Counts ---------------------------------------------------------------

  /** The count of a locked object and the references to it change together. */
  lemma CountStep(s: Sys, t: nat, u: Sys, j: nat, d: int)
    requires Inv(s) && t < |s.ths| == |u.ths| && HasObj(s.ths[t].pc) == Some(j) && Core(s) && Linked(s, j)
    requires (d == 1 && u.ths[t].refs == s.ths[t].refs + multiset{j})
          || (d == -1 && j in s.ths[t].refs && s.counts[j] != 1 && u.ths[t].refs == s.ths[t].refs - multiset{j})
    requires u == s.(counts := s.counts[j := s.counts[j] + d], ths := s.ths[t := u.ths[t]])
    requires LocksWithin(u.ths[t].pc, s.ths[t].pc) && SameHands(s, u) && Core(u) && PcOk(u, t, u.ths[t])
    ensures Inv(u)
  {
    hide Core, Excl, OffChain, Counted, PcOk, C.Good, All, SameHands, CanEnter;
    InvParts(s, t);
    CoreShaped(u);
    EnterWithin(s, t, u.ths[t].pc);
    AllUpdate(s.ths, t, u.ths[t]);
    OffChainSame(s, u);
    CountedStep(s, u, j, d);
    Preserve(s, t, u);
  }

  lemma CountedStep(s: Sys, u: Sys, j: nat, d: int)
    requires Shaped(s) && Shaped(u) && SameHands(s, u) && u.ch.own == s.ch.own && Counted(s) && Linked(s, j)
    requires u.counts == s.counts[j := s.counts[j] + d] && (d == 1 || (d == -1 && s.counts[j] != 1))
    requires All(u.ths) == if d == 1 then All(s.ths) + multiset{j} else All(s.ths) - multiset{j}
    ensures Counted(u)
  {
    hide All, SameHands;
    forall x | 0 <= x < |u.counts|
      ensures if Alive(u, x) then u.counts[x] == All(u.ths)[x] && u.counts[x] >= 1 else All(u.ths)[x] == 0
    {
      AliveSame(s, u, x);
    }
  }

  lemma SameHandsAt(s: Sys, t: nat, u: Sys)
    requires t < |s.ths| == |u.ths| && u.ths == s.ths[t := u.ths[t]]
    requires Private(u.ths[t].pc) == Private(s.ths[t].pc) && Doomed(u.ths[t].pc) == Doomed(s.ths[t].pc)
    ensures SameHands(s, u)
  {
  }

  lemma CoreOf(s: Sys, u: Sys)
    requires Core(s) && u == s.(counts := u.counts, ths := u.ths) && |u.counts| == |s.counts|
    ensures Core(u)
  {
    hide C.Good;
  }

  lemma GainStep(s: Sys, t: nat, j: nat, pc: Pc)
    requires Inv(s) && t < |s.ths|
    requires (s.ths[t].pc == HoldInc(j) && pc == HoldDone(j))
          || (s.ths[t].pc.FindInc? && s.ths[t].pc.j == j && pc == FindDone(s.ths[t].pc.id, j))
    ensures j < |s.counts| && Inv(Gain(s, t, j, pc))
  {
    hide Inv, Core, C.Good, SameHands, PcOk, Excl, OffChain, Counted;
    InvParts(s, t);
    GainLinked(s, t, j);
    var u := Gain(s, t, j, pc);
    SameHandsAt(s, t, u);
    CoreOf(s, u);
    LockedPc(u, t, j);
    CountStep(s, t, u, j, 1);
  }

  lemma GainLinked(s: Sys, t: nat, j: nat)
    requires Core(s) && t < |s.ths| && PcOk(s, t, s.ths[t])
    requires s.ths[t].pc == HoldInc(j) || (s.ths[t].pc.FindInc? && s.ths[t].pc.j == j)
    ensures Linked(s, j) && j < |s.counts|
  {
    if s.ths[t].pc.FindInc? {
      assert s.ch.own[s.ch.lists[Slot(s.ths[t].pc.id)][s.ths[t].pc.a]] == Slot(s.ths[t].pc.id);
    }
  }

  lemma LoseStep(s: Sys, t: nat, j: nat, pc: Pc)
    requires Inv(s) && t < |s.ths|
    requires (s.ths[t].pc == RelDec(j) && pc == RelDone(j)) || (s.ths[t].pc == RelDecBoth(j) && pc == RelDropObj(j))
    ensures j < |s.counts| && Inv(Lose(s, t, j, pc))
  {
    hide Inv, Core, C.Good, SameHands, PcOk, Excl, OffChain, Counted;
    InvParts(s, t);
    LoseParts(s, t, j);
    var u := Lose(s, t, j, pc);
    SameHandsAt(s, t, u);
    CoreOf(s, u);
    LockedPc(u, t, j);
    CountStep(s, t, u, j, -1);
  }

  lemma LoseParts(s: Sys, t: nat, j: nat)
    requires Core(s) && t < |s.ths| && PcOk(s, t, s.ths[t])
    requires s.ths[t].pc == RelDec(j) || s.ths[t].pc == RelDecBoth(j)
    ensures Linked(s, j) && j < |s.counts| && j in s.ths[t].refs && s.counts[j] != 1
  {
  }

  lemma LockedPc(u: Sys, t: nat, j: nat)
    requires Core(u) && t < |u.ths| && Linked(u, j)
    ensures u.ths[t].pc == RelDone(j) || u.ths[t].pc == RelDropObj(j) ==> PcOk(u, t, u.ths[t])
    ensures u.ths[t].pc == HoldDone(j) || (u.ths[t].pc.FindDone? && u.ths[t].pc.j == j) ==> PcOk(u, t, u.ths[t])
  {
    hide Core;
  }

  // ---- A new object ---------------------------------------------------------

  lemma NewCore(s: Sys, t: nat, id: int)
    requires Core(s) && t < |s.ths|
    ensures Core(NewObject(s, t, id))
  {
    C.ExtendGood(s.ch, 0, |s.counts| + 1, Tag(t));
    hide C.Good;
  }

  lemma NewCounted(s: Sys, t: nat, id: int)
    requires Core(s) && Counted(s) && t < |s.ths| && s.ths[t].pc.Idle? && OffChain(s)
    ensures Shaped(NewObject(s, t, id)) && Counted(NewObject(s, t, id))
  {
    hide C.Good, All;
    var u, j := NewObject(s, t, id), |s.counts|;
    AllUpdate(s.ths, t, u.ths[t]);
    assert j !in All(s.ths);
    assert All(u.ths) == All(s.ths) + multiset{j};
    forall x | 0 <= x < |u.counts|
      ensures if Alive(u, x) then u.counts[x] == All(u.ths)[x] && u.counts[x] >= 1 else All(u.ths)[x] == 0
    {
      if x < j {
        NewAlive(s, t, id, x);
      }
    }
  }

  lemma NewAlive(s: Sys, t: nat, id: int, x: nat)
    requires Core(s) && t < |s.ths| && s.ths[t].pc.Idle? && OffChain(s) && x < |s.counts|
    requires Shaped(NewObject(s, t, id))
    ensures Alive(NewObject(s, t, id), x) == Alive(s, x)
  {
    IdleOwnsNone(s, t, x);
    hide Core, OffChain, C.Good;
  }

  lemma IdleOwnsNone(s: Sys, t: nat, x: nat)
    requires Shaped(s) && OffChain(s) && t < |s.ths| && s.ths[t].pc.Idle? && x < |s.ch.own|
    ensures s.ch.own[x] != Tag(t)
  {
    hide Shaped;
  }

  lemma NewOffChain(s: Sys, t: nat, id: int)
    requires Core(s) && t < |s.ths| && s.ths[t].pc.Idle? && OffChain(s) && Shaped(NewObject(s, t, id))
    ensures OffChain(NewObject(s, t, id))
  {
    hide C.Good, Core, NewObject, Private, Doomed;
    var u := NewObject(s, t, id);
    forall j | 0 <= j < |u.ch.own| && u.ch.own[j] <= -2
      ensures var q := -2 - u.ch.own[j];
        q < |u.ths| && (Private(u.ths[q].pc) == Some(j) || Doomed(u.ths[q].pc) == Some(j))
    {
      hide OffChain;
      NewOffElsewhere(s, t, id, j);
    }
  }

  lemma NewOffElsewhere(s: Sys, t: nat, id: int, j: nat)
    requires Core(s) && t < |s.ths| && s.ths[t].pc.Idle? && OffChain(s) && Shaped(NewObject(s, t, id))
    requires j < |NewObject(s, t, id).ch.own| && NewObject(s, t, id).ch.own[j] <= -2
    ensures var u := NewObject(s, t, id);
      var q := -2 - u.ch.own[j];
      q < |u.ths| && (Private(u.ths[q].pc) == Some(j) || Doomed(u.ths[q].pc) == Some(j))
  {
    hide C.Good;
    if j < |s.ch.own| {
      var q := -2 - s.ch.own[j];
      assert Private(s.ths[q].pc) == Some(j) || Doomed(s.ths[q].pc) == Some(j);
    }
  }

  lemma NewObjectStep(s: Sys, t: nat, id: int)
    requires Inv(s) && t < |s.ths| && s.ths[t].pc.Idle?
    ensures Inv(NewObject(s, t, id))
  {
    hide Inv, Core, C.Good, All, Excl, OffChain, Counted, PcOk, CanEnter, Frame;
    InvParts(s, t);
    NewCore(s, t, id);
    var u := NewObject(s, t, id);
    CoreShaped(u);
    NewCounted(s, t, id);
    NewOffChain(s, t, id);
    EnterWithin(s, t, u.ths[t].pc);
    NewFrame(s, t, id);
    Preserve(s, t, u);
  }

  lemma NewFrame(s: Sys, t: nat, id: int)
    requires Core(s) && t < |s.ths| && Core(NewObject(s, t, id))
    ensures Frame(s, t, NewObject(s, t, id)) && PcOk(NewObject(s, t, id), t, NewObject(s, t, id).ths[t])
  {
    hide C.Good;
  }

  lemma AllocNextStep(s: Sys, t: nat, j: nat)
    requires Inv(s) && t < |s.ths| && s.ths[t].pc == AllocNext(j)
    ensures j < |s.ids| && Shaped(s)
    ensures Inv(SetNext(s, t, j))
  {
    hide Inv, Core, C.Good, All, Excl, OffChain, Counted, SameHands, PcOk;
    InvParts(s, t);
    AllocNextPc(s, t, j);
    AllocNextFrame(s, t, j);
    var u := SetNext(s, t, j);
    AllocNextCounts(s, t, j);
    EnterWithin(s, t, u.ths[t].pc);
    hide CanEnter, Frame, SetNext;
    Preserve(s, t, u);
  }

  lemma AllocNextCounts(s: Sys, t: nat, j: nat)
    requires Shaped(s) && t < |s.ths| && s.ths[t].pc == AllocNext(j) && Mine(s, t, j) && Shaped(SetNext(s, t, j))
    requires OffChain(s) && Counted(s)
    ensures OffChain(SetNext(s, t, j)) && Counted(SetNext(s, t, j))
  {
    hide OffChain, Counted, All;
    var u := SetNext(s, t, j);
    AllUpdate(s.ths, t, u.ths[t]);
    OffChainSame(s, u);
    CountedSame(s, u);
  }

  lemma AllocNextFrame(s: Sys, t: nat, j: nat)
    requires Shaped(s) && t < |s.ths| && s.ths[t].pc == AllocNext(j) && Mine(s, t, j)
    ensures var u := SetNext(s, t, j);
      |u.ths| == |s.ths| && u.ths[t].pc == AllocHead(j) && Shaped(u) && Frame(s, t, u)
  {
  }

  lemma AllocNextPc(s: Sys, t: nat, j: nat)
    requires Core(s) && t < |s.ths| && PcOk(s, t, s.ths[t]) && s.ths[t].pc == AllocNext(j)
    ensures Mine(s, t, j)
    ensures var u := SetNext(s, t, j);
      Core(u) && PcOk(u, t, u.ths[t])
  {
    C.SetPtrGood(s.ch, j, s.ch.heads[Slot(s.ids[j])]);
    hide C.Good;
  }

  // ---- An object joins its chain --------------------------------------------

  lemma PublishIs(s: Sys, t: nat, j: nat)
    requires Inv(s) && t < |s.ths| && s.ths[t].pc == AllocHead(j)
    ensures Core(s) && j < |s.ids| && Mine(s, t, j) && j in s.ths[t].refs
    ensures Publish(s, t, j).ch == C.Push(s.ch, Slot(s.ids[j]), j) && Core(Publish(s, t, j))
  {
    InvParts(s, t);
    var h := Slot(s.ids[j]);
    assert s.ch.ptrs[j := s.ch.heads[h]] == s.ch.ptrs;
    C.PushGood(s.ch, h, j);
    hide C.Good, C.Push;
  }

  lemma PublishCounts(s: Sys, t: nat, j: nat)
    requires Inv(s) && t < |s.ths| && s.ths[t].pc == AllocHead(j) && Core(s) && j < |s.ids| && Mine(s, t, j)
    requires Core(Publish(s, t, j))
    ensures OffChain(Publish(s, t, j)) && Counted(Publish(s, t, j))
  {
    hide Inv, Core, C.Good, All, Excl, PcOk;
    InvParts(s, t);
    var u := Publish(s, t, j);
    CoreShaped(u);
    AllUpdate(s.ths, t, u.ths[t]);
    SettleOffChain(s, t, u, j, u.ths[t], Slot(s.ids[j]));
    assert Alive(u, j) == Alive(s, j);
    SettleCounted(s, u);
  }

  /** Thread t's one object off the chains settles somewhere. */
  lemma SettleOffChain(s: Sys, t: nat, u: Sys, j: nat, th: Thread, v: int)
    requires Shaped(s) && Shaped(u) && OffChain(s) && t < |s.ths| && Mine(s, t, j)
    requires u.ths == s.ths[t := th] && u.ch.own == s.ch.own[j := v] && v > -2
    requires Private(s.ths[t].pc) == Some(j) || Doomed(s.ths[t].pc) == Some(j)
    ensures OffChain(u)
    ensures forall x :: 0 <= x < |s.ch.own| && x != j ==> Alive(u, x) == Alive(s, x)
  {
    OnlyOne(s, t, j);
    hide C.Good, C.Shape, Private, Doomed, Alive;
    forall x | 0 <= x < |s.ch.own| && x != j
      ensures Alive(u, x) == Alive(s, x)
    {
      hide OffChain;
      AliveElsewhere(s, t, u, x);
    }
    forall x | 0 <= x < |u.ch.own| && u.ch.own[x] <= -2
      ensures var q := -2 - u.ch.own[x];
        q < |u.ths| && (Private(u.ths[q].pc) == Some(x) || Doomed(u.ths[q].pc) == Some(x))
    {
      OffElsewhere(s, t, u, x);
    }
  }

  lemma AliveElsewhere(s: Sys, t: nat, u: Sys, x: nat)
    requires Shaped(s) && Shaped(u) && x < |s.ch.own| == |u.ch.own| && u.ch.own[x] == s.ch.own[x] != Tag(t)
    requires |u.ths| == |s.ths| && forall q :: 0 <= q < |s.ths| && q != t ==> u.ths[q] == s.ths[q]
    ensures Alive(u, x) == Alive(s, x)
  {
    hide C.Shape, Private;
  }

  lemma OffElsewhere(s: Sys, t: nat, u: Sys, x: nat)
    requires Shaped(s) && OffChain(s) && x < |s.ch.own| == |u.ch.own| && u.ch.own[x] == s.ch.own[x] != Tag(t)
    requires u.ch.own[x] <= -2
    requires |u.ths| == |s.ths| && forall q :: 0 <= q < |s.ths| && q != t ==> u.ths[q] == s.ths[q]
    ensures var q := -2 - u.ch.own[x];
      q < |u.ths| && (Private(u.ths[q].pc) == Some(x) || Doomed(u.ths[q].pc) == Some(x))
  {
    hide C.Shape, Private, Doomed;
    var q := -2 - s.ch.own[x];
    assert Private(s.ths[q].pc) == Some(x) || Doomed(s.ths[q].pc) == Some(x);
  }

  lemma OnlyOne(s: Sys, t: nat, j: nat)
    requires Shaped(s) && OffChain(s) && t < |s.ths|
    requires Private(s.ths[t].pc) == Some(j) || Doomed(s.ths[t].pc) == Some(j)
    ensures forall x :: 0 <= x < |s.ch.own| && x != j ==> s.ch.own[x] != Tag(t)
  {
    hide C.Shape;
  }

  lemma SettleCounted(s: Sys, u: Sys)
    requires Shaped(s) && Shaped(u) && Counted(s) && u.counts == s.counts && All(u.ths) == All(s.ths)
    requires forall x :: 0 <= x < |s.ch.own| ==> Alive(u, x) == Alive(s, x)
    ensures Counted(u)
  {
    hide Alive, All;
  }

  lemma PublishStep(s: Sys, t: nat, j: nat)
    requires Inv(s) && t < |s.ths| && s.ths[t].pc == AllocHead(j)
    ensures Shaped(s) && j < |s.ids| && Inv(Publish(s, t, j))
  {
    InvParts(s, t);
    PublishIs(s, t, j);
    hide Inv, Core, C.Good, C.Push, Excl, OffChain, Counted, PcOk;
    var u := Publish(s, t, j);
    CoreShaped(u);
    PublishCounts(s, t, j);
    EnterWithin(s, t, u.ths[t].pc);
    PublishPc(s, t, j);
    PublishFrame(s, t, j);
    hide CanEnter, Frame, Publish;
    Preserve(s, t, u);
  }

  lemma PublishFrame(s: Sys, t: nat, j: nat)
    requires Shaped(s) && t < |s.ths| && s.ths[t].pc == AllocHead(j) && Mine(s, t, j) && Shaped(Publish(s, t, j))
    ensures Frame(s, t, Publish(s, t, j)) && |Publish(s, t, j).ths| == |s.ths|
  {
  }

  lemma PublishPc(s: Sys, t: nat, j: nat)
    requires Core(s) && t < |s.ths| && j < |s.ids| && Core(Publish(s, t, j)) && j in s.ths[t].refs
    ensures PcOk(Publish(s, t, j), t, Publish(s, t, j).ths[t])
  {
    hide C.Good;
  }

  // ---- The last release -----------------------------------------------------

  lemma CutIs(s: Sys, t: nat, j: nat, a: nat, prev: int)
    requires Inv(s) && t < |s.ths| && s.ths[t].pc == CutWrite(j, a, prev)
    ensures Core(s) && j < |s.ids| && a < |s.ch.lists[Slot(s.ids[j])]| && s.ch.lists[Slot(s.ids[j])][a] == j
    ensures 0 <= prev <= |s.ch.ptrs| && Linked(s, j) && j in s.ths[t].refs && s.counts[j] == 1
    ensures Cut(s, t, j, a, prev).ch == C.Unlink(s.ch, Slot(s.ids[j]), a, Tag(t)) && Core(Cut(s, t, j, a, prev))
  {
    InvParts(s, t);
    var h := Slot(s.ids[j]);
    assert a > 0 ==> s.ch.own[s.ch.lists[h][a - 1]] == h;
    C.UnlinkGood(s.ch, h, a, Tag(t));
    hide C.Good, C.Unlink;
    CutShape(s, t, j, a, prev);
  }

  lemma CutShape(s: Sys, t: nat, j: nat, a: nat, prev: int)
    requires Core(s) && t < |s.ths| && j < |s.ids| && a < |s.ch.lists[Slot(s.ids[j])]|
    requires s.ch.lists[Slot(s.ids[j])][a] == j && prev == PrevOf(s.ch.lists[Slot(s.ids[j])], a)
    requires 0 <= prev <= |s.ch.ptrs|
    ensures Cut(s, t, j, a, prev).ch == C.Unlink(s.ch, Slot(s.ids[j]), a, Tag(t))
  {
  }

  /** Nobody else has a reference to an object whose count is 1. */
  lemma CutCounts(s: Sys, t: nat, j: nat, a: nat, prev: int)
    requires Inv(s) && t < |s.ths| && s.ths[t].pc == CutWrite(j, a, prev)
    requires Core(s) && j < |s.ids| && a < |s.ch.lists[Slot(s.ids[j])]| && 0 <= prev <= |s.ch.ptrs|
    requires Linked(s, j) && j in s.ths[t].refs && s.counts[j] == 1 && Core(Cut(s, t, j, a, prev))
    ensures OffChain(Cut(s, t, j, a, prev)) && Counted(Cut(s, t, j, a, prev))
  {
    hide Inv, Core, C.Good, All, Excl, PcOk;
    InvParts(s, t);
    var u := Cut(s, t, j, a, prev);
    CoreShaped(u);
    AllUpdate(s.ths, t, u.ths[t]);
    LeaveOffChain(s, t, u, j);
    LeaveCounted(s, u, j);
  }

  /** Object j leaves its chain for thread t's hands. */
  lemma LeaveOffChain(s: Sys, t: nat, u: Sys, j: nat)
    requires Shaped(s) && Shaped(u) && OffChain(s) && t < |s.ths| && Linked(s, j)
    requires |u.ths| == |s.ths| && u.ths == s.ths[t := u.ths[t]] && |u.ch.own| == |s.ch.own|
    requires u.ch.own == s.ch.own[j := Tag(t)]
    requires Private(s.ths[t].pc) == Doomed(s.ths[t].pc) == None == Private(u.ths[t].pc)
    requires Doomed(u.ths[t].pc) == Some(j)
    ensures OffChain(u) && !Alive(u, j)
    ensures forall x :: 0 <= x < |s.ch.own| && x != j ==> Alive(u, x) == Alive(s, x)
  {
    hide C.Good, C.Shape, Private, Doomed;
    assert forall x :: 0 <= x < |s.ch.own| ==> s.ch.own[x] != Tag(t);
    assert !Alive(u, j);
    hide Alive;
    forall x | 0 <= x < |s.ch.own| && x != j
      ensures Alive(u, x) == Alive(s, x)
    {
      hide OffChain;
      AliveElsewhere(s, t, u, x);
    }
    forall x | 0 <= x < |u.ch.own| && u.ch.own[x] <= -2
      ensures var q := -2 - u.ch.own[x];
        q < |u.ths| && (Private(u.ths[q].pc) == Some(x) || Doomed(u.ths[q].pc) == Some(x))
    {
      if x != j {
        OffElsewhere(s, t, u, x);
      }
    }
  }

  lemma LeaveCounted(s: Sys, u: Sys, j: nat)
    requires Shaped(s) && Shaped(u) && Counted(s) && u.counts == s.counts && j < |s.ch.own| && s.counts[j] == 1
    requires All(u.ths) == All(s.ths) - multiset{j} && Linked(s, j) && !Alive(u, j)
    requires forall x :: 0 <= x < |s.ch.own| && x != j ==> Alive(u, x) == Alive(s, x)
    ensures Counted(u)
  {
    assert Alive(s, j);
    hide Alive, All;
  }

  lemma CutStep(s: Sys, t: nat, j: nat, a: nat, prev: int)
    requires Inv(s) && t < |s.ths| && s.ths[t].pc == CutWrite(j, a, prev)
    ensures Shaped(s) && j < |s.ids| && a < |s.ch.lists[Slot(s.ids[j])]| && 0 <= prev <= |s.ch.ptrs|
    ensures Inv(Cut(s, t, j, a, prev))
  {
    InvParts(s, t);
    CutIs(s, t, j, a, prev);
    hide Inv, Core, C.Good, C.Unlink, Excl, OffChain, Counted, Frame, PcOk;
    var u := Cut(s, t, j, a, prev);
    CoreShaped(u);
    CutCounts(s, t, j, a, prev);
    EnterWithin(s, t, u.ths[t].pc);
    CutFrame(s, t, j, a, prev);
    DoomedPc(u, t, j);
    hide CanEnter;
    Preserve(s, t, u);
  }

  lemma DoomedPc(u: Sys, t: nat, j: nat)
    requires Core(u) && t < |u.ths| && Mine(u, t, j) && u.ths[t].pc == CutDropHash(j)
    ensures PcOk(u, t, u.ths[t])
  {
  }

  lemma CutFrame(s: Sys, t: nat, j: nat, a: nat, prev: int)
    requires Inv(s) && t < |s.ths| && s.ths[t].pc == CutWrite(j, a, prev)
    requires Core(s) && j < |s.ids| && a < |s.ch.lists[Slot(s.ids[j])]| && 0 <= prev <= |s.ch.ptrs|
    requires Shaped(Cut(s, t, j, a, prev))
    ensures Frame(s, t, Cut(s, t, j, a, prev))
  {
    hide Inv, Excl, OffChain, Counted;
    InvParts(s, t);
    assert a > 0 ==> s.ch.own[s.ch.lists[Slot(s.ids[j])][a - 1]] == Slot(s.ids[j]);
    hide C.Good;
  }

  // ---- Freeing --------------------------------------------------------------

  lemma DisposeCore(s: Sys, t: nat, j: nat)
    requires Core(s) && t < |s.ths| && Mine(s, t, j)
    ensures Core(Dispose(s, t, j))
  {
    var c := s.ch.(own := s.ch.own[j := FREED]);
    assert C.Placed(c);
    forall k | 0 <= k < |s.ch.lists|
      ensures C.LinkedList(c, k)
    {
      assert C.LinkedList(s.ch, k);
    }
    assert C.Good(c);
    hide C.Good, C.Placed, C.LinkedList;
  }

  lemma DisposeCounts(s: Sys, t: nat, j: nat)
    requires Inv(s) && t < |s.ths| && s.ths[t].pc == CutFree(j) && Core(s) && Mine(s, t, j) && Core(Dispose(s, t, j))
    ensures OffChain(Dispose(s, t, j)) && Counted(Dispose(s, t, j))
  {
    hide Inv, Core, C.Good, All, Excl, PcOk;
    InvParts(s, t);
    var u := Dispose(s, t, j);
    CoreShaped(u);
    AllUpdate(s.ths, t, u.ths[t]);
    SettleOffChain(s, t, u, j, u.ths[t], FREED);
    assert Alive(u, j) == Alive(s, j);
    SettleCounted(s, u);
  }

  lemma DisposeStep(s: Sys, t: nat, j: nat)
    requires Inv(s) && t < |s.ths| && s.ths[t].pc == CutFree(j)
    ensures Shaped(s) && j < |s.ch.own| && Inv(Dispose(s, t, j))
  {
    InvParts(s, t);
    DisposeCore(s, t, j);
    DisposeCounts(s, t, j);
    hide Inv, Core, C.Good, Excl, OffChain, Counted;
    var u := Dispose(s, t, j);
    CoreShaped(u);
    EnterWithin(s, t, u.ths[t].pc);
    DisposeFrame(s, t, j);
    assert PcOk(u, t, u.ths[t]);
    hide CanEnter, Frame, PcOk, Dispose;
    Preserve(s, t, u);
  }

  lemma DisposeFrame(s: Sys, t: nat, j: nat)
    requires Shaped(s) && t < |s.ths| && s.ths[t].pc == CutFree(j) && Mine(s, t, j) && Shaped(Dispose(s, t, j))
    ensures Frame(s, t, Dispose(s, t, j)) && |Dispose(s, t, j).ths| == |s.ths|
  {
  }
}
