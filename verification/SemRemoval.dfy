/** When removing a semaphore set takes it away from a process that uses it. */
module SemRemoval {
  import opened SemSet
  import opened SemInv
  import opened SemRuns

  lemma HeldIff(procs: seq<Proc>, id: nat)
    ensures HeldBy(procs, id) > 0 <==> exists q :: 0 <= q < |procs| && id in procs[q].held
  {
    if q :| 0 <= q < |procs| && id in procs[q].held {
      var gone := procs[q].(held := multiset{});
      HeldUpdate(procs, q, gone, id);
      HeldNat(procs[q := gone], id);
    } else {
      NoneHeld(procs, id);
    }
  }

  // ---- sem_close ------------------------------------------------------------

  /** Step i is a sem_open of the set that gets through. */
  ghost predicate Opens(run: seq<State>, who: seq<nat>, i: nat, id: nat)
    requires i < |who| < |run|
  {
    && who[i] < |run[i].procs| && who[i] < |run[i + 1].procs|
    && run[i].procs[who[i]].pc == OpenDec(id) && run[i + 1].procs[who[i]].pc.Idle?
  }

  /** Process q used the set at step c or has opened it since, and has not ended. */
  ghost predicate Using(run: seq<State>, who: seq<nat>, c: nat, k: nat, q: nat, id: nat)
    requires c <= k <= |who| < |run| && q < |run[k].procs| && q < |run[c].procs|
  {
    && !run[k].procs[q].pc.Dead? && !run[c].procs[q].pc.Dead?
    && (id in run[c].procs[q].held || exists i :: c < i < k && who[i] == q && Opens(run, who, i, id))
  }

  /** Steps of others while p has the lock: one that opens the set begins to use it,
      one that ends does not use it any more, and the rest change nothing. */
  lemma UnderLock(s: State, q: nat, t: State, p: nat)
    requires Inv(s) && q < |s.procs| == |t.procs| && Next(s, q, t) && p < |s.procs| && p != q && Holds(s, p)
    requires !Holds(s, q)
    ensures var id, a, b := s.live.value.id, s.procs[q], t.procs[q];
      if a.pc == OpenDec(id) && b.pc.Idle? then id in b.held
      else if b.pc.Dead? then id !in b.held
      else !a.pc.Dead? && (id in b.held <==> id in a.held)
  {
    hide HeldBy, OverBy, Users, Overs;
    HolderHolds(s, p);
  }

  lemma UsingNext(n: nat, run: seq<State>, who: seq<nat>, k: nat, p: nat, c: nat, q: nat)
    requires IsRun(n, run, who) && 0 < k < |run| && p < n && q < n && c < k - 1 && who[k - 1] != p
    requires |run[k].procs| == |run[k - 1].procs| == |run[c].procs| == n
    requires Holds(run[k], p) && run[k].procs[p].pc.CloseRm?
    requires var id := run[k].procs[p].pc.id; id in run[k - 1].procs[q].held <==> Using(run, who, c, k - 1, q, id)
    requires !run[k - 1].procs[q].pc.Dead? ==> !run[c].procs[q].pc.Dead?
    ensures var id := run[k].procs[p].pc.id; id in run[k].procs[q].held <==> Using(run, who, c, k, q, id)
    ensures !run[k].procs[q].pc.Dead? ==> !run[c].procs[q].pc.Dead?
  {
    RunStep(n, run, who, k);
    var s, r, t, id := run[k - 1], who[k - 1], run[k], run[k].procs[p].pc.id;
    hide IsRun, Inv, Next;
    ProcsStay(s, r, t);
    SetStays(s, r, t, p);
    UnderLock(s, r, t, p);
    LaterOpens(run, who, c, k, q, id);
    NeverBack(s, r, t);
  }

  lemma NeverBack(s: State, p: nat, t: State)
    requires p < |s.procs| && Next(s, p, t)
    ensures !s.procs[p].pc.Dead?
  {
  }

  lemma LaterOpens(run: seq<State>, who: seq<nat>, c: nat, k: nat, q: nat, id: nat)
    requires 0 < k <= |who| < |run| && c < k - 1 && q < |run[k].procs| == |run[k - 1].procs|
    ensures (exists i :: c < i < k && who[i] == q && Opens(run, who, i, id)) <==>
      || (exists i :: c < i < k - 1 && who[i] == q && Opens(run, who, i, id))
      || (who[k - 1] == q && Opens(run, who, k - 1, id))
  {
    hide Opens;
  }

  /** The closer's test: as many uses as closes that were too many. */
  lemma Tested(n: nat, run: seq<State>, who: seq<nat>, k: nat, p: nat)
    requires IsRun(n, run, who) && 0 < k < |run| && p < |run[k].procs| && who[k - 1] == p
    requires Holds(run[k], p) && run[k].procs[p].pc.CloseRm?
    ensures p < |run[k - 1].procs| == |run[k].procs|
    ensures run[k - 1].procs[p].pc == CloseTest(run[k].procs[p].pc.id) && IsLive(run[k - 1], run[k].procs[p].pc.id)
    ensures Users(run[k - 1]) == Overs(run[k - 1])
    ensures forall q :: 0 <= q < |run[k].procs| ==>
      && run[k].procs[q].held == run[k - 1].procs[q].held
      && (run[k].procs[q].pc.Dead? <==> run[k - 1].procs[q].pc.Dead?)
  {
    RunStep(n, run, who, k);
    hide IsRun, Inv, Next, Users, Overs;
    ProcsStay(run[k - 1], p, run[k]);
    TestStepIs(run[k - 1], p, run[k]);
  }

  lemma TestStepIs(s: State, p: nat, t: State)
    requires Inv(s) && p < |s.procs| == |t.procs| && Next(s, p, t) && t.procs[p].pc.CloseRm? && Holds(t, p)
    ensures s.procs[p].pc == CloseTest(t.procs[p].pc.id) && IsLive(s, t.procs[p].pc.id)
    ensures t.procs[p].held == s.procs[p].held && Users(s) == Overs(s)
  {
    hide HeldBy, OverBy, Fresh, Alone;
    assert Knows(s, p);
  }

  lemma {:induction false} WhoUses(n: nat, run: seq<State>, who: seq<nat>, k: nat, p: nat) returns (c: nat)
    requires IsRun(n, run, who) && k < |run| && p < |run[k].procs| && Holds(run[k], p) && run[k].procs[p].pc.CloseRm?
    ensures c < k && who[c] == p && forall j :: c < j < k ==> who[j] != p
    ensures |run[c].procs| == |run[k].procs| == n && run[c].procs[p].pc == CloseTest(run[k].procs[p].pc.id)
    ensures IsLive(run[c], run[k].procs[p].pc.id) && Users(run[c]) == Overs(run[c])
    ensures forall q :: 0 <= q < n ==>
      && (run[k].procs[p].pc.id in run[k].procs[q].held <==> Using(run, who, c, k, q, run[k].procs[p].pc.id))
      && (!run[k].procs[q].pc.Dead? ==> !run[c].procs[q].pc.Dead?)
    decreases k
  {
    hide Inv, Next, Bounded, Init, Users, Overs;
    NotAtStart(n, run, who, k, p);
    RunStep(n, run, who, k);
    c := k - 1;
    if who[c] == p {
      Tested(n, run, who, k, p);
      DeadHoldNothing(n, run, who, k);
    } else {
      ProcsStay(run[k - 1], who[k - 1], run[k]);
      SetStays(run[k - 1], who[k - 1], run[k], p);
      c := WhoUses(n, run, who, k - 1, p);
      hide IsRun, Using;
      forall q | 0 <= q < n
        ensures run[k].procs[p].pc.id in run[k].procs[q].held <==> Using(run, who, c, k, q, run[k].procs[p].pc.id)
        ensures !run[k].procs[q].pc.Dead? ==> !run[c].procs[q].pc.Dead?
      {
        UsingNext(n, run, who, k, p, c, q);
      }
    }
  }

  lemma NotAtStart(n: nat, run: seq<State>, who: seq<nat>, k: nat, p: nat)
    requires IsRun(n, run, who) && k < |run| && p < |run[k].procs| && run[k].procs[p].pc.CloseRm?
    ensures k > 0
  {
  }

  /** Some process uses the set when its closer tests [1], and has not ended. */
  ghost predicate UsedThen(run: seq<State>, who: seq<nat>, c: nat, k: nat, id: nat)
    requires c <= k < |run| == |who| + 1
  {
    exists q: nat :: q < |run[k].procs| && !run[k].procs[q].pc.Dead? && History(run, who, q, id, c).used > 0
  }

  /** Some sem_open of it gets through after that, of a process that has not ended. */
  ghost predicate OpenedSince(run: seq<State>, who: seq<nat>, c: nat, k: nat, id: nat)
    requires c <= k < |run| == |who| + 1
  {
    exists i: nat :: c < i < k && Opens(run, who, i, id) && who[i] < |run[k].procs| && !run[k].procs[who[i]].pc.Dead?
  }

  /** A closer that is about to remove the set takes it from under a user exactly when
      somebody's sem_open got through after the closer's test of [1], or somebody used
      it at the test already, and has not ended since. The second is when the set had
      been closed too often, exactly as often as it was used, so never in balanced
      runs. */
  lemma RemovalHurtsIff(n: nat, run: seq<State>, who: seq<nat>, k: nat, p: nat) returns (c: nat)
    requires IsRun(n, run, who) && k < |run| && p < |run[k].procs|
    requires run[k].procs[p].pc.CloseRm? && IsLive(run[k], run[k].procs[p].pc.id)
    ensures c < k && who[c] == p && forall j :: c < j < k ==> who[j] != p
    ensures p < |run[c].procs| && run[c].procs[p].pc == CloseTest(run[k].procs[p].pc.id)
    ensures Users(run[c]) == Overs(run[c])
    ensures var id := run[k].procs[p].pc.id;
      Users(run[k]) > 0 <==> OpenedSince(run, who, c, k, id) || UsedThen(run, who, c, k, id)
    ensures Balanced(run, who) ==> !UsedThen(run, who, c, k, run[k].procs[p].pc.id)
  {
    c := WhoUses(n, run, who, k, p);
    var id := run[k].procs[p].pc.id;
    HeldIff(run[k].procs, id);
    forall q: nat | q < n && !run[k].procs[q].pc.Dead?
      ensures History(run, who, q, id, c).used > 0 <==> id in run[c].procs[q].held
    {
      UsesHeld(n, run, who, q, id, c);
    }
    if Balanced(run, who) {
      BalancedOvers(n, run, who, c);
      HeldIff(run[c].procs, id);
    }
    hide IsRun, Opens, History, HeldBy, OverBy, Balanced;
    UsersAre(n, run, who, k, c, id);
  }

  lemma UsersAre(n: nat, run: seq<State>, who: seq<nat>, k: nat, c: nat, id: nat)
    requires c < k < |run| == |who| + 1 && |run[k].procs| == |run[c].procs| == n
    requires forall q :: 0 <= q < n ==> (id in run[k].procs[q].held <==> Using(run, who, c, k, q, id))
    requires forall q :: 0 <= q < n && !run[k].procs[q].pc.Dead? ==> !run[c].procs[q].pc.Dead?
    requires forall q: nat :: q < n && !run[k].procs[q].pc.Dead? ==>
      (History(run, who, q, id, c).used > 0 <==> id in run[c].procs[q].held)
    ensures (exists q :: 0 <= q < n && id in run[k].procs[q].held) <==>
      OpenedSince(run, who, c, k, id) || UsedThen(run, who, c, k, id)
  {
    hide Opens, History;
    if q :| 0 <= q < n && id in run[k].procs[q].held {
      assert Using(run, who, c, k, q, id);
      if id !in run[c].procs[q].held {
        var i :| c < i < k && who[i] == q && Opens(run, who, i, id);
      }
    }
    if OpenedSince(run, who, c, k, id) {
      var i: nat :| c < i < k && Opens(run, who, i, id) && who[i] < n && !run[k].procs[who[i]].pc.Dead?;
      assert Using(run, who, c, k, who[i], id);
    }
    if UsedThen(run, who, c, k, id) {
      var q: nat :| q < n && !run[k].procs[q].pc.Dead? && History(run, who, q, id, c).used > 0;
      assert Using(run, who, c, k, q, id);
    }
  }

  // ---- sem_rm ---------------------------------------------------------------

  /** A direct sem_rm takes the set from under a user exactly when some process that
      has not ended has created or opened it and not closed it since. In balanced runs
      that is so exactly when [1], which the caller can ask for first, lies strictly
      between 0 and BIGCOUNT. */
  lemma DirectRemovalHurtsIff(n: nat, run: seq<State>, who: seq<nat>, k: nat, p: nat)
    requires IsRun(n, run, who) && k < |run| && p < |run[k].procs|
    requires run[k].procs[p].pc.Rm? && IsLive(run[k], run[k].procs[p].pc.id)
    ensures Users(run[k]) > 0 <==>
      exists q: nat :: q < |run[k].procs| && !run[k].procs[q].pc.Dead?
                       && History(run, who, q, run[k].procs[p].pc.id, k).used > 0
    ensures Users(run[k]) > Overs(run[k]) <==> 0 < run[k].live.value.v1 < BIGCOUNT
    ensures Balanced(run, who) ==> Overs(run[k]) == 0
  {
    RunInv(n, run, who, k);
    var s, id := run[k], run[k].procs[p].pc.id;
    DeadHoldNothing(n, run, who, k);
    assert Bounded(s);
    HeldIff(s.procs, id);
    HeldNat(s.procs, id);
    forall q: nat | q < |s.procs| && !s.procs[q].pc.Dead?
      ensures s.procs[q].held[id] == History(run, who, q, id, k).used
    {
      UsesHeld(n, run, who, q, id, k);
    }
    if Balanced(run, who) {
      BalancedOvers(n, run, who, k);
    }
    hide IsRun, HeldBy, OverBy, History, Balanced;
    assert SetOk(s);
    if q: nat :| q < |s.procs| && id in s.procs[q].held {
      assert !s.procs[q].pc.Dead? && History(run, who, q, id, k).used > 0;
    }
    if q: nat :| q < |s.procs| && !s.procs[q].pc.Dead? && History(run, who, q, id, k).used > 0 {
      assert id in s.procs[q].held;
    }
  }
}
