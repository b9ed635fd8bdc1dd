/** What every run of the semaphore calls guarantees. */
module SemRuns {
  import opened SemSet
  import opened SemInv

  /** The counts that member [1] has room for. */
  predicate Bounded(s: State) {
    Users(s) < BIGCOUNT && Overs(s) <= SEMVMX - BIGCOUNT
  }

  // ---- Steps ----------------------------------------------------------------

  /** A step that only moves the process. */
  lemma Move(s: State, p: nat, pc: Pc)
    requires Inv(s) && p < |s.procs| && (pc.CloseLock? ==> pc.id in s.known)
    requires Locks(pc) == Locks(s.procs[p].pc) && (Locks(pc) ==> pc.id == s.procs[p].pc.id)
    requires Knows(Go(s, p, pc), p)
    ensures Inv(Go(s, p, pc))
  {
    var t := Go(s, p, pc);
    assert ProcOk(s, p);
    if s.live.Some? {
      UsersChange(s, p, t);
      hide HeldBy, OverBy;
      HolderHolds(s, p);
      Preserve(s, p, t);
    } else {
      forall i | 0 <= i < |s.procs|
        ensures ProcOk(t, i) && Knows(t, i)
      {
        assert ProcOk(s, i);
      }
    }
  }

  lemma HolderHolds(s: State, p: nat)
    requires Inv(s) && p < |s.procs| && s.live.Some?
    ensures Holds(s, p) ==> s.live.value.v2 == 1
  {
    hide HeldBy, OverBy, Users, ProcOk, Knows, Fresh;
  }

  lemma Parts(s: State, p: nat)
    requires Inv(s) && p < |s.procs|
    ensures Fresh(s) && ProcOk(s, p) && Knows(s, p) && SetOk(s)
  {
  }

  lemma ExitStep(s: State, p: nat)
    requires Inv(s) && p < |s.procs| && Bounded(s)
    ensures Inv(Exit(s, p))
  {
    var t := Exit(s, p);
    assert ProcOk(s, p);
    if s.live.Some? {
      UsersChange(s, p, t);
      hide HeldBy, OverBy;
      HolderHolds(s, p);
      Preserve(s, p, t);
    } else {
      forall i | 0 <= i < |s.procs|
        ensures ProcOk(t, i) && Knows(t, i)
      {
        assert ProcOk(s, i);
      }
    }
  }

  lemma GetStep(s: State, p: nat, init: int)
    requires Inv(s) && p < |s.procs| && s.procs[p].pc.CreateGet?
    ensures Inv(Get(s, p, init))
  {
    if s.live.Some? {
      Move(s, p, CreateLock(s.live.value.id, init));
    } else {
      NewSet(s, p, init);
    }
  }

  lemma NewSet(s: State, p: nat, init: int)
    requires Inv(s) && p < |s.procs| && s.procs[p].pc.CreateGet? && s.live.None?
    ensures Inv(Get(s, p, init))
  {
    var t := Get(s, p, init);
    assert s.next !in s.known;
    NoneHeld(t.procs, s.next);
    hide HeldBy, OverBy;
    forall i | 0 <= i < |s.procs|
      ensures ProcOk(t, i) && Knows(t, i) && !Holds(t, i)
    {
      assert ProcOk(s, i);
      assert s.next !in s.procs[i].held && s.next !in s.procs[i].over;
    }
  }

  lemma RemoveStep(s: State, p: nat)
    requires Inv(s) && p < |s.procs|
    ensures Inv(Remove(s, p))
  {
    var t := Remove(s, p);
    hide HeldBy, OverBy;
    forall i | 0 <= i < |s.procs|
      ensures ProcOk(t, i) && Knows(t, i)
    {
      assert ProcOk(s, i);
    }
  }

  lemma LockStep(s: State, p: nat, t: State)
    requires Inv(s) && p < |s.procs| && s.procs[p].pc.CreateLock? && IsLive(s, s.procs[p].pc.id)
    requires Lock(s, p, CreateTest(s.procs[p].pc.id, s.procs[p].pc.init), t)
    ensures Inv(t)
  {
    assert ProcOk(s, p);
    UsersChange(s, p, t);
    hide HeldBy, OverBy;
    Preserve(s, p, t);
  }

  lemma CloseStep(s: State, p: nat, t: State)
    requires Inv(s) && p < |s.procs| && s.procs[p].pc.CloseLock? && IsLive(s, s.procs[p].pc.id)
    requires BeginClose(s, p, s.procs[p].pc.id, t)
    ensures Inv(t)
  {
    hide Inv, HeldBy, OverBy, Alone, Users, Overs;
    Parts(s, p);
    UsersChange(s, p, t);
    Preserve(s, p, t);
  }

  lemma EndStep(s: State, p: nat, t: State)
    requires Inv(s) && p < |s.procs| && s.procs[p].pc.CreateEnd? && IsLive(s, s.procs[p].pc.id)
    requires EndCreate(s, p, s.procs[p].pc.id, t)
    ensures Inv(t)
  {
    hide Inv, HeldBy, OverBy, Alone, Users, Overs;
    Parts(s, p);
    UsersChange(s, p, t);
    HolderHolds(s, p);
    Preserve(s, p, t);
  }

  lemma DecStep(s: State, p: nat, t: State)
    requires Inv(s) && p < |s.procs| && s.procs[p].pc.OpenDec? && IsLive(s, s.procs[p].pc.id)
    requires Dec(s, p, s.procs[p].pc.id, t)
    ensures Inv(t)
  {
    hide Inv, HeldBy, OverBy, Alone, Users, Overs;
    Parts(s, p);
    UsersChange(s, p, t);
    Preserve(s, p, t);
  }

  lemma UnlockStep(s: State, p: nat, t: State)
    requires Inv(s) && p < |s.procs| && s.procs[p].pc.CloseUnlock? && IsLive(s, s.procs[p].pc.id)
    requires Unlock(s, p, t)
    ensures Inv(t)
  {
    assert ProcOk(s, p);
    UsersChange(s, p, t);
    hide HeldBy, OverBy;
    HolderHolds(s, p);
    Preserve(s, p, t);
  }

  lemma AddStep(s: State, p: nat, t: State)
    requires Inv(s) && p < |s.procs| && s.procs[p].pc.Op? && IsLive(s, s.procs[p].pc.id)
    requires Add(s, p, s.procs[p].pc.amount, t)
    ensures Inv(t)
  {
    assert ProcOk(s, p);
    UsersChange(s, p, t);
    hide HeldBy, OverBy;
    Preserve(s, p, t);
  }

  lemma SetVal0Step(s: State, p: nat)
    requires Inv(s) && p < |s.procs| && s.procs[p].pc.CreateVal? && IsLive(s, s.procs[p].pc.id)
    ensures Inv(SetVal0(s, p, s.procs[p].pc.id, s.procs[p].pc.init))
  {
    assert ProcOk(s, p) && Knows(s, p);
    var t := SetVal0(s, p, s.procs[p].pc.id, s.procs[p].pc.init);
    UsersChange(s, p, t);
    hide HeldBy, OverBy;
    HolderHolds(s, p);
    Preserve(s, p, t);
  }

  /** Nobody has an adjustment of [1] to lose before [1] is set. */
  lemma SetVal1Step(s: State, p: nat)
    requires Inv(s) && p < |s.procs| && s.procs[p].pc.CreateCount? && IsLive(s, s.procs[p].pc.id)
    ensures Inv(SetVal1(s, p, s.procs[p].pc.id, s.procs[p].pc.init))
  {
    assert ProcOk(s, p) && Knows(s, p);
    var id := s.procs[p].pc.id;
    forall i | 0 <= i < |s.procs|
      ensures s.procs[i].adj1 == 0
    {
      assert ProcOk(s, i);
      HeldUpdate(s.procs, i, s.procs[i], id);
    }
    var t := SetVal1(s, p, id, s.procs[p].pc.init);
    UsersChange(s, p, t);
    hide HeldBy, OverBy;
    HolderHolds(s, p);
    Preserve(s, p, t);
  }

  lemma TestStep(s: State, p: nat, t: State)
    requires Inv(s) && p < |s.procs| && (s.procs[p].pc.CreateTest? || s.procs[p].pc.CloseTest?)
    requires IsLive(s, s.procs[p].pc.id) && Bounded(s) && Acts(s, p, t)
    ensures Inv(t)
  {
    HeldNat(s.procs, s.live.value.id);
    assert Knows(s, p);
    hide HeldBy, OverBy;
    Move(s, p, t.procs[p].pc);
  }

  lemma ActStep(s: State, p: nat, t: State)
    requires Inv(s) && p < |s.procs| && HasId(s.procs[p].pc) && IsLive(s, s.procs[p].pc.id) && Bounded(s)
    requires Acts(s, p, t)
    ensures Inv(t)
  {
    var pc := s.procs[p].pc;
    hide Inv, Users, Bounded, Lock, EndCreate, Dec, BeginClose, Unlock, Remove, Add, SetVal0, SetVal1;
    if pc.CreateLock? {
      LockStep(s, p, t);
    } else if pc.CreateTest? || pc.CloseTest? {
      TestStep(s, p, t);
    } else if pc.CreateVal? {
      SetVal0Step(s, p);
    } else if pc.CreateCount? {
      SetVal1Step(s, p);
    } else if pc.CreateEnd? {
      EndStep(s, p, t);
    } else if pc.OpenDec? {
      DecStep(s, p, t);
    } else if pc.CloseLock? {
      CloseStep(s, p, t);
    } else if pc.CloseRm? || pc.Rm? {
      RemoveStep(s, p);
    } else if pc.CloseUnlock? {
      UnlockStep(s, p, t);
    } else {
      AddStep(s, p, t);
    }
  }

  lemma BeginStep(s: State, p: nat, t: State)
    requires Inv(s) && p < |s.procs| && s.procs[p].pc.Idle? && Begin(s, p, t)
    ensures Inv(t)
  {
    hide Inv;
    Move(s, p, t.procs[p].pc);
  }

  /** Every step keeps the invariant while the counts are within bounds. */
  lemma InvNext(s: State, p: nat, t: State)
    requires Inv(s) && p < |s.procs| && Next(s, p, t) && Bounded(s)
    ensures Inv(t)
  {
    var pc := s.procs[p].pc;
    hide Inv, Users, Bounded, Begin, Acts, Get, Exit;
    if t == Exit(s, p) {
      ExitStep(s, p);
    } else if pc.Idle? {
      BeginStep(s, p, t);
    } else if pc.CreateGet? && t == Get(s, p, pc.init) {
      GetStep(s, p, pc.init);
    } else if HasId(pc) && IsLive(s, pc.id) {
      ActStep(s, p, t);
    } else {
      Move(s, p, t.procs[p].pc);
    }
  }

  // ---- Runs -----------------------------------------------------------------

  /** How often a process has created or opened a set and not closed it since, and how
      often it has closed it beyond that. */
  datatype Tally = Tally(used: nat, extra: nat)

  /** Process q has created or opened the set in this step. */
  predicate Gets(s: State, t: State, q: nat, id: nat) {
    q < |s.procs| && q < |t.procs| && t.procs[q].pc.Idle? &&
    var a := s.procs[q].pc;
    (a.CreateEnd? && a.id == id) || a == OpenDec(id)
  }

  /** Process q has closed it. */
  predicate Closes(s: State, t: State, q: nat, id: nat) {
    q < |s.procs| && q < |t.procs| && s.procs[q].pc == CloseLock(id) && t.procs[q].pc == CloseTest(id)
  }

  /** The calls of q on the set that have got through in the first k steps. */
  ghost function History(run: seq<State>, who: seq<nat>, q: nat, id: nat, k: nat): Tally
    requires k < |run| == |who| + 1
  {
    if k == 0 then Tally(0, 0) else
      var h := History(run, who, q, id, k - 1);
      if who[k - 1] != q then h
      else if Gets(run[k - 1], run[k], q, id) then h.(used := h.used + 1)
      else if !Closes(run[k - 1], run[k], q, id) then h
      else if h.used > 0 then h.(used := h.used - 1) else h.(extra := h.extra + 1)
  }

  /** No process closes a set more often than it has created and opened it. */
  ghost predicate Balanced(run: seq<State>, who: seq<nat>)
    requires |run| == |who| + 1
  {
    forall q: nat, id: nat, k: nat :: k < |run| ==> History(run, who, q, id, k).extra == 0
  }

  /** Process who[k] takes step k, and the counts are always within bounds. */
  ghost predicate IsRun(n: nat, run: seq<State>, who: seq<nat>) {
    && |run| == |who| + 1 && run[0] == Init(n)
    && (forall k {:trigger who[k]} :: 0 <= k < |who| ==> who[k] < |run[k].procs| && Next(run[k], who[k], run[k + 1]))
    && (forall k :: 0 <= k < |run| ==> Bounded(run[k]))
  }

  lemma {:induction false} RunInv(n: nat, run: seq<State>, who: seq<nat>, k: nat)
    requires IsRun(n, run, who) && k < |run|
    ensures Inv(run[k])
  {
    if k > 0 {
      RunInv(n, run, who, k - 1);
      hide Inv, Next, Bounded;
      assert who[k - 1] < |run[k - 1].procs|;
      InvNext(run[k - 1], who[k - 1], run[k - 1 + 1]);
    }
  }

  lemma {:induction false} SameProcs(n: nat, run: seq<State>, who: seq<nat>, k: nat)
    requires IsRun(n, run, who) && k < |run|
    ensures |run[k].procs| == n
  {
    if k > 0 {
      SameProcs(n, run, who, k - 1);
      hide Next, Bounded;
      assert who[k - 1] < |run[k - 1].procs| && Next(run[k - 1], who[k - 1], run[k - 1 + 1]);
      ProcsStay(run[k - 1], who[k - 1], run[k - 1 + 1]);
    }
  }

  /** Step k - 1 of a run, and what is known around it. */
  lemma RunStep(n: nat, run: seq<State>, who: seq<nat>, k: nat)
    requires IsRun(n, run, who) && 0 < k < |run|
    ensures |run[k - 1].procs| == |run[k].procs| == n && who[k - 1] < n && Next(run[k - 1], who[k - 1], run[k])
    ensures Inv(run[k - 1]) && Inv(run[k]) && Bounded(run[k - 1])
  {
    SameProcs(n, run, who, k - 1);
    SameProcs(n, run, who, k);
    RunInv(n, run, who, k - 1);
    RunInv(n, run, who, k);
    hide Next, Bounded, Inv;
    assert who[k - 1] < |run[k - 1].procs| && Next(run[k - 1], who[k - 1], run[k - 1 + 1]);
  }

  lemma ProcsStay(s: State, p: nat, t: State)
    requires p < |s.procs| && Next(s, p, t)
    ensures |t.procs| == |s.procs| && forall i :: 0 <= i < |s.procs| && i != p ==>
      t.procs[i].pc == s.procs[i].pc && t.procs[i].held == s.procs[i].held && t.procs[i].over == s.procs[i].over
  {
  }

  /** The calls of a process that has not ended say what it holds. */
  lemma StepUses(s: State, p: nat, t: State, id: nat)
    requires p < |s.procs| == |t.procs| && Next(s, p, t) && !t.procs[p].pc.Dead?
    ensures var a, b := s.procs[p], t.procs[p];
      !a.pc.Dead? &&
      if Gets(s, t, p, id) then b.held[id] == a.held[id] + 1 && b.over[id] == a.over[id]
      else if !Closes(s, t, p, id) then b.held[id] == a.held[id] && b.over[id] == a.over[id]
      else if a.held[id] > 0 then b.held[id] == a.held[id] - 1 && b.over[id] == a.over[id]
      else b.held[id] == a.held[id] && b.over[id] == a.over[id] + 1
  {
    var pc := s.procs[p].pc;
    if HasId(pc) && IsLive(s, pc.id) && t != Exit(s, p) {
      hide Next;
      ActUses(s, p, t, id);
    }
  }

  lemma ActUses(s: State, p: nat, t: State, id: nat)
    requires p < |s.procs| == |t.procs| && HasId(s.procs[p].pc) && IsLive(s, s.procs[p].pc.id) && Acts(s, p, t)
    ensures var a, b := s.procs[p], t.procs[p];
      if Gets(s, t, p, id) then b.held[id] == a.held[id] + 1 && b.over[id] == a.over[id]
      else if !Closes(s, t, p, id) then b.held[id] == a.held[id] && b.over[id] == a.over[id]
      else if a.held[id] > 0 then b.held[id] == a.held[id] - 1 && b.over[id] == a.over[id]
      else b.held[id] == a.held[id] && b.over[id] == a.over[id] + 1
  {
  }

  lemma {:induction false} UsesHeld(n: nat, run: seq<State>, who: seq<nat>, q: nat, id: nat, k: nat)
    requires IsRun(n, run, who) && k < |run| && q < |run[k].procs| && !run[k].procs[q].pc.Dead?
    ensures History(run, who, q, id, k) == Tally(run[k].procs[q].held[id], run[k].procs[q].over[id])
  {
    hide Next, Inv, Bounded, Gets, Closes;
    if k > 0 {
      RunStep(n, run, who, k);
      ProcsStay(run[k - 1], who[k - 1], run[k]);
      if who[k - 1] == q {
        StepUses(run[k - 1], q, run[k], id);
      }
      UsesHeld(n, run, who, q, id, k - 1);
    }
  }

  lemma {:induction false} DeadHoldNothing(n: nat, run: seq<State>, who: seq<nat>, k: nat)
    requires IsRun(n, run, who) && k < |run|
    ensures forall q :: 0 <= q < |run[k].procs| && run[k].procs[q].pc.Dead? ==>
      run[k].procs[q].held == multiset{} && run[k].procs[q].over == multiset{}
  {
    hide Inv, Bounded;
    if k > 0 {
      DeadHoldNothing(n, run, who, k - 1);
      RunStep(n, run, who, k);
      DeadStep(run[k - 1], who[k - 1], run[k]);
    }
  }

  lemma DeadStep(s: State, p: nat, t: State)
    requires p < |s.procs| && Next(s, p, t)
    requires forall q :: 0 <= q < |s.procs| && s.procs[q].pc.Dead? ==>
      s.procs[q].held == multiset{} && s.procs[q].over == multiset{}
    ensures forall q :: 0 <= q < |t.procs| && t.procs[q].pc.Dead? ==>
      t.procs[q].held == multiset{} && t.procs[q].over == multiset{}
  {
    ProcsStay(s, p, t);
  }

  /** In balanced runs nobody has closed too often. */
  lemma BalancedOvers(n: nat, run: seq<State>, who: seq<nat>, k: nat)
    requires IsRun(n, run, who) && Balanced(run, who) && k < |run|
    ensures Overs(run[k]) == 0
  {
    var s := run[k];
    if s.live.Some? {
      var id := s.live.value.id;
      DeadHoldNothing(n, run, who, k);
      forall q | 0 <= q < |s.procs|
        ensures id !in s.procs[q].over
      {
        if !s.procs[q].pc.Dead? {
          UsesHeld(n, run, who, q, id, k);
        }
      }
      hide IsRun, History;
      NoneHeld(s.procs, id);
    }
  }

  /** In every state, member [1] and the adjustments of it make BIGCOUNT once it
      has been set, and are 0 before, and count the uses less the closes that were too
      many; member [2] and its adjustments make 0, and at most one process has the
      lock. In balanced runs no adjustment of [1] is negative, and nobody finds [1]
      above BIGCOUNT. */
  lemma MembersConserved(n: nat, run: seq<State>, who: seq<nat>, k: nat)
    requires IsRun(n, run, who) && k < |run| && run[k].live.Some?
    ensures var s, x := run[k], run[k].live.value;
      && x.v1 + Sum1(s.procs) == (if x.ready then BIGCOUNT else 0)
      && x.v2 + Sum2(s.procs) == 0
      && Sum1(s.procs) == Users(s) - Overs(s)
      && (forall p, q :: 0 <= p < |s.procs| && 0 <= q < |s.procs| ==>
            s.procs[p].adj2 != 0 && s.procs[q].adj2 != 0 ==> p == q)
    ensures Balanced(run, who) ==> Overs(run[k]) == 0
    ensures Balanced(run, who) ==> forall p :: 0 <= p < |run[k].procs| ==> run[k].procs[p].adj1 >= 0
  {
    var s := run[k];
    RunInv(n, run, who, k);
    if Balanced(run, who) {
      BalancedOvers(n, run, who, k);
    }
    hide IsRun, Balanced;
    forall i | 0 <= i < |s.procs|
      ensures s.procs[i].adj1 == Net(s.procs[i], s.live.value.id)
      ensures Overs(s) == 0 ==> s.procs[i].adj1 >= 0
    {
      assert ProcOk(s, i);
      HeldUpdate(s.procs, i, s.procs[i], s.live.value.id);
    }
    SumIsHeld(s.procs, s.live.value.id);
    LockSum(s);
    hide HeldBy, OverBy, Sum1, Sum2;
    forall p, q | 0 <= p < |s.procs| && 0 <= q < |s.procs| && s.procs[p].adj2 != 0 && s.procs[q].adj2 != 0
      ensures p == q
    {
      assert ProcOk(s, p) && ProcOk(s, q);
    }
  }

  /** A closer finds [1] above BIGCOUNT exactly when the set has been closed too often
      by more than it is used; in balanced runs nobody ever does. */
  lemma DumpsIff(n: nat, run: seq<State>, who: seq<nat>, k: nat)
    requires IsRun(n, run, who) && k < |who| && who[k] < |run[k].procs| == |run[k + 1].procs|
    requires run[k].procs[who[k]].pc.CloseTest? && !run[k + 1].procs[who[k]].pc.Dead?
    ensures run[k + 1].procs[who[k]].pc.Dumped? <==> Overs(run[k]) > Users(run[k])
    ensures Balanced(run, who) ==> !run[k + 1].procs[who[k]].pc.Dumped?
  {
    var s, p := run[k], who[k];
    RunStep(n, run, who, k + 1);
    if Balanced(run, who) {
      BalancedOvers(n, run, who, k);
      if s.live.Some? {
        HeldNat(s.procs, s.live.value.id);
      }
    }
    hide IsRun, Balanced, HeldBy, OverBy;
    assert Knows(s, p);
  }

  lemma LockSum(s: State)
    requires Inv(s) && s.live.Some?
    ensures s.live.value.v2 + Sum2(s.procs) == 0
  {
    if p :| 0 <= p < |s.procs| && Holds(s, p) {
      assert ProcOk(s, p);
      var u := s.procs[p := s.procs[p].(adj2 := 0)];
      SumUpdate(s.procs, p, s.procs[p].(adj2 := 0));
      forall i | 0 <= i < |u|
        ensures u[i].adj2 == 0
      {
        assert ProcOk(s, i);
      }
      Sum2Zero(u);
    } else {
      forall i | 0 <= i < |s.procs|
        ensures s.procs[i].adj2 == 0
      {
        assert ProcOk(s, i);
      }
      Sum2Zero(s.procs);
    }
  }

  lemma {:induction false} Sum2Zero(procs: seq<Proc>)
    requires forall i :: 0 <= i < |procs| ==> procs[i].adj2 == 0
    ensures Sum2(procs) == 0
  {
    if procs != [] {
      Sum2Zero(procs[..|procs| - 1]);
    }
  }

  /** Member [0] is given an initial value only while nobody uses the set, even
      after a creator died half way. */
  lemma InitialisedUnused(n: nat, run: seq<State>, who: seq<nat>, k: nat, p: nat)
    requires IsRun(n, run, who) && k < |run| && p < |run[k].procs|
    requires run[k].procs[p].pc.CreateVal? && IsLive(run[k], run[k].procs[p].pc.id)
    ensures Users(run[k]) == 0 && !run[k].live.value.ready
  {
    RunInv(n, run, who, k);
    hide IsRun;
    assert ProcOk(run[k], p) && Knows(run[k], p);
  }

  /** A process with the lock is never kept waiting, unless it has found [1] above
      BIGCOUNT and ends. */
  lemma HolderRuns(n: nat, run: seq<State>, who: seq<nat>, k: nat, p: nat) returns (t: State)
    requires IsRun(n, run, who) && k < |run| && p < |run[k].procs| && run[k].procs[p].adj2 != 0
    requires run[k].procs[p].pc.CreateVal? ==> 0 <= run[k].procs[p].pc.init <= SEMVMX
    requires !run[k].procs[p].pc.Dumped?
    ensures HasId(run[k].procs[p].pc) && IsLive(run[k], run[k].procs[p].pc.id) && Acts(run[k], p, t)
  {
    var s := run[k];
    RunInv(n, run, who, k);
    assert ProcOk(s, p) && Knows(s, p);
    assert Bounded(s);
    HeldNat(s.procs, s.live.value.id);
    hide IsRun;
    HolderHolds(s, p);
    hide HeldBy, OverBy, Inv;
    match s.procs[p].pc
    case CreateTest(id, init) =>
      t := Go(s, p, if s.live.value.v1 == 0 then CreateVal(id, init) else CreateEnd(id, init));
    case CreateVal(id, init) => t := SetVal0(s, p, id, init);
    case CreateCount(id, init) => t := SetVal1(s, p, id, init);
    case CreateEnd(id, init) =>
      var x, q := s.live.value, s.procs[p];
      t := With(s.(known := s.known + {id}), x.(v1 := x.v1 - 1, v2 := x.v2 - 1), p,
                q.(pc := Idle, held := q.held + multiset{id}, adj1 := q.adj1 + 1, adj2 := q.adj2 + 1));
    case CloseTest(id) =>
      var v1 := s.live.value.v1;
      t := Go(s, p, if v1 > BIGCOUNT then Dumped(id) else if v1 == BIGCOUNT then CloseRm(id) else CloseUnlock(id));
    case CloseRm(id) => t := Remove(s, p);
    case CloseUnlock(id) =>
      var x, q := s.live.value, s.procs[p];
      t := With(s, x.(v2 := x.v2 - 1), p, q.(pc := Idle, adj2 := q.adj2 + 1));
  }

  // ---- When sem_close removes a set -----------------------------------------

  /** No process calls sem_open, or sem_rm by itself. */
  ghost predicate Locked(run: seq<State>) {
    forall k, p :: 0 <= k < |run| && 0 <= p < |run[k].procs| ==>
      !run[k].procs[p].pc.OpenGet? && !run[k].procs[p].pc.OpenDec? && !run[k].procs[p].pc.Rm?
  }

  /** A set about to be removed has no users. */
  ghost predicate Unused(s: State) {
    forall p :: 0 <= p < |s.procs| && s.procs[p].pc.CloseRm? && Holds(s, p) ==> Users(s) == 0
  }

  /** Uses begin and end under the lock, or end with the process. */
  lemma UsersUnder(s: State, p: nat, t: State)
    requires Inv(s) && p < |s.procs| && Next(s, p, t) && !s.procs[p].pc.OpenDec?
    requires s.live.Some? && s.live.value.v2 == 1 && !Holds(s, p) && t.live.Some? && t.live.value.id == s.live.value.id
    ensures Users(t) <= Users(s)
  {
    hide HeldBy, OverBy;
    HoldsLess(s, p, t);
    hide Inv, Next;
    ProcsStay(s, p, t);
    var id := s.live.value.id;
    HeldUpdate(s.procs, p, t.procs[p], id);
    HeldSame(s.procs[p := t.procs[p]], t.procs, id);
  }

  lemma HoldsLess(s: State, p: nat, t: State)
    requires p < |s.procs| && Next(s, p, t) && !s.procs[p].pc.OpenDec?
    requires s.live.Some? && s.live.value.v2 == 1 && !Holds(s, p) && t.live.Some? && t.live.value.id == s.live.value.id
    ensures |t.procs| == |s.procs| && t.procs[p].held[s.live.value.id] <= s.procs[p].held[s.live.value.id]
  {
    var pc := s.procs[p].pc;
    if HasId(pc) && IsLive(s, pc.id) {
      assert t == Exit(s, p) || pc.Op? || pc.Rm?  || pc.CreateLock? || pc.CloseLock?;
    }
  }

  lemma UnusedNext(s: State, p: nat, t: State)
    requires Inv(s) && Inv(t) && Unused(s) && p < |s.procs| && Next(s, p, t) && !s.procs[p].pc.OpenDec? && Overs(t) == 0
    ensures Unused(t)
  {
    forall i | 0 <= i < |t.procs| && t.procs[i].pc.CloseRm? && Holds(t, i)
      ensures Users(t) == 0
    {
      ProcsStay(s, p, t);
      if i == p {
        UnusedFound(s, p, t);
      } else {
        hide HeldBy, OverBy, Next, Inv;
        SetStays(s, p, t, i);
        HolderHolds(s, i);
        UsersUnder(s, p, t);
        HeldNat(t.procs, t.live.value.id);
      }
    }
  }

  /** The closer has just read BIGCOUNT. */
  lemma UnusedFound(s: State, p: nat, t: State)
    requires Inv(t) && p < |s.procs| == |t.procs| && Next(s, p, t) && t.procs[p].pc.CloseRm? && Holds(t, p)
    ensures Users(t) == Overs(t)
  {
    assert Knows(t, p);
    hide HeldBy, OverBy;
  }

  /** A set a process holds the lock of was there before another's step. */
  lemma SetStays(s: State, p: nat, t: State, i: nat)
    requires Inv(s) && p < |s.procs| && Next(s, p, t) && i < |s.procs| == |t.procs| && i != p
    requires t.procs[i].pc == s.procs[i].pc && Holds(t, i)
    ensures Holds(s, i) && !Holds(s, p) && t.live.value.id == s.live.value.id
  {
    hide HeldBy, OverBy, Users;
  }

  lemma {:induction false} RunUnused(n: nat, run: seq<State>, who: seq<nat>, k: nat)
    requires IsRun(n, run, who) && Locked(run) && Balanced(run, who) && k < |run|
    ensures Unused(run[k])
  {
    if k > 0 {
      RunUnused(n, run, who, k - 1);
      RunInv(n, run, who, k - 1);
      RunInv(n, run, who, k);
      BalancedOvers(n, run, who, k);
      hide Inv, Next, Bounded, Unused, Balanced, Overs;
      assert who[k - 1] < |run[k - 1].procs|;
      UnusedNext(run[k - 1], who[k - 1], run[k - 1 + 1]);
    }
  }

  /** Without sem_open and direct sem_rm, and if nobody closes a set more often than they
      have created it, a set goes only when nobody uses it. */
  lemma RemovedUnused(n: nat, run: seq<State>, who: seq<nat>, k: nat)
    requires IsRun(n, run, who) && Locked(run) && Balanced(run, who) && k < |who| && run[k].live.Some?
    requires run[k + 1].live.None? || run[k + 1].live.value.id != run[k].live.value.id
    ensures Users(run[k]) == 0
  {
    RunUnused(n, run, who, k);
    var s, p, t := run[k], who[k], run[k + 1];
    assert p < |s.procs| && Next(s, p, t) && !s.procs[p].pc.Rm?;
    hide IsRun, Locked, Balanced, HeldBy, OverBy;
    assert s.procs[p].pc.CloseRm? && Holds(s, p);
  }
}
