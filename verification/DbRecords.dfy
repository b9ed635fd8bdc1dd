/** In every run of several processes every index record has one place, and only a
    process that dies with a record in hand loses it. */
module DbRecords {
  import opened Values
  import opened IndexFile
  import opened DbStore
  import opened DbShared
  import opened DbInterleave
  import opened DbFrame
  import opened DbRuns
  import opened DbReads
  import opened DbWrites
  import opened DbCalls
  import opened DbConcurrent
  import C = Chains

  // ---- One place for every record -------------------------------------------

  /** Record j is on exactly one list, or in exactly one process's hand, or lost. */
  ghost predicate OnePlace(s: State, j: nat)
    requires j < |s.ch.own|
  {
    var o := s.ch.own[j];
    && (forall i :: 0 <= i < |s.ch.lists| ==> (j in s.ch.lists[i] <==> i == o))
    && (forall p :: 0 <= p < |s.procs| ==> (Held(s.procs[p]) == Some(j) <==> o == Tag(p)))
    && (o >= 0 ==> o < |s.ch.lists|) && (o <= -2 ==> -2 - o < |s.procs|)
  }

  lemma HeldIsOwned(s: State, p: nat, j: nat)
    requires Core(s) && p < |s.procs| && PcOk(s, p, s.procs[p]) && Held(s.procs[p]) == Some(j)
    ensures j < |s.recs| && s.ch.own[j] == Tag(p)
  {
    hide Core, Hash, Leaving, Inserting, Appending, Data;
  }

  lemma PlaceOf(s: State, j: nat)
    requires Inv(s) && j < |s.recs|
    ensures j < |s.ch.own| && OnePlace(s, j)
  {
    InvParts(s);
    InvRest(s);
    hide Inv, KeysOk, DataOk, Hash, PcOk, Agree, PendingsApart, Excl;
    forall i | 0 <= i < |s.ch.lists|
      ensures j in s.ch.lists[i] <==> i == s.ch.own[j]
    {
      if j in s.ch.lists[i] {
        var a :| 0 <= a < |s.ch.lists[i]| && s.ch.lists[i][a] == j;
      }
    }
    forall p | 0 <= p < |s.procs|
      ensures Held(s.procs[p]) == Some(j) <==> s.ch.own[j] == Tag(p)
    {
      if Held(s.procs[p]) == Some(j) {
        assert PcOk(s, p, s.procs[p]);
        HeldIsOwned(s, p, j);
      }
    }
  }

  lemma UnlockedLinked(s: State, i: nat)
    requires Inv(s) && i < NLISTS && forall p :: 0 <= p < |s.procs| ==> !Touches(s.procs[p], i)
    ensures C.Shape(s.ch) && C.Placed(s.ch) && |s.ch.lists| == NLISTS && C.LinkedList(s.ch, i)
  {
    hide Agree, HeldOk, PendingsApart, Linear, Hash, PcOk, KeysOk, DataOk, Excl;
    forall p | 0 <= p < |s.procs|
      ensures Breaks(s.procs[p]) != Some(i)
    {
      assert PcOk(s, p, s.procs[p]);
      if Breaks(s.procs[p]).Some? {
        BreaksTouches(s, p);
      }
    }
  }

  // ---- Lost records ---------------------------------------------------------

  /** The records lost by t that s had not lost are what p had in hand when it died. */
  ghost predicate Loses(s: State, p: nat, t: State)
    requires p < |s.procs| == |t.procs|
  {
    && |s.ch.own| <= |t.ch.own|
    && (forall j :: 0 <= j < |s.ch.own| ==>
          (t.ch.own[j] == LOST <==> s.ch.own[j] == LOST || (t.procs[p].Dead? && Held(s.procs[p]) == Some(j))))
    && (forall j :: |s.ch.own| <= j < |t.ch.own| ==> t.ch.own[j] != LOST)
  }

  lemma FindLoses(s: State, p: nat, t: State)
    requires Enabled(s) && p < |s.procs| && !Deletes(s.procs[p]) && !Inserts(s.procs[p]) && !Appends(s.procs[p])
    requires NextFind(s, p, t)
    ensures |s.procs| == |t.procs| && Loses(s, p, t)
  {
    hide Enabled, C.Placed, Hash, CanEnter, Data;
  }

  lemma DeleteLoses(s: State, p: nat, t: State)
    requires Enabled(s) && Core(s) && p < |s.procs| && Deletes(s.procs[p]) && NextDelete(s, p, t)
    requires PcOk(s, p, s.procs[p])
    ensures |s.procs| == |t.procs| && Loses(s, p, t)
  {
    hide Core, Hash, CanEnter, Data, Leaving, Located;
    var pc := s.procs[p];
    if pc.DelDat? {
      OnItsList(s, ChainOf(pc.op.key), pc.a);
    }
  }

  lemma InsertLoses(s: State, p: nat, t: State)
    requires Enabled(s) && Core(s) && p < |s.procs| && Inserts(s.procs[p]) && NextInsert(s, p, t)
    requires PcOk(s, p, s.procs[p])
    ensures |s.procs| == |t.procs| && Loses(s, p, t)
  {
    hide Core, Hash, CanEnter, Data, Inserting, TakeFree, C.Placed, Enabled;
    PlacedCore(s);
    var pc := s.procs[p];
    if pc.FFTake? {
      OnItsList(s, FREE, pc.a);
      TakeOwn(s, p, pc.a, pc.prev, pc.j);
    }
  }

  lemma TakeOwn(s: State, p: nat, a: nat, prev: int, j: nat)
    requires Enabled(s) && a < |s.ch.lists[FREE]| && 0 <= prev <= |s.recs| && j < |s.recs|
    ensures TakeFree(s, p, a, prev, j).ch.own == s.ch.own[j := Tag(p)] && TakeFree(s, p, a, prev, j).procs == s.procs
  {
    hide C.Placed;
  }

  lemma AppendLoses(s: State, p: nat, t: State)
    requires Enabled(s) && Core(s) && p < |s.procs| && Appends(s.procs[p]) && NextAppend(s, p, t)
    requires PcOk(s, p, s.procs[p])
    ensures |s.procs| == |t.procs| && Loses(s, p, t)
  {
    hide Core, Hash, CanEnter, Data, Appending, PendingOk, C.Placed, Enabled, Die;
    PlacedCore(s);
    if t == Die(s, p) {
      DieLoses(s, p);
    }
  }

  lemma DieLoses(s: State, p: nat)
    requires p < |s.procs| && |s.ch.own| == |s.recs|
    ensures |Die(s, p).procs| == |s.procs| && Loses(s, p, Die(s, p))
  {
    hide Held, Flux;
  }

  lemma OnItsList(s: State, i: nat, a: nat)
    requires Enabled(s) && i < NLISTS && a < |s.ch.lists[i]|
    ensures s.ch.lists[i][a] < |s.ch.own| && s.ch.own[s.ch.lists[i][a]] == i
  {
  }

  lemma LosesNext(s: State, p: nat, t: State)
    requires Inv(s) && Enabled(s) && p < |s.procs| && Next(s, p, t)
    ensures |s.procs| == |t.procs| && Loses(s, p, t)
  {
    hide Inv, Core, PcOk, Loses, Enabled, NextFind, NextDelete, NextInsert, NextAppend;
    InvPc(s, p);
    if Deletes(s.procs[p]) {
      DeleteLoses(s, p, t);
    } else if Inserts(s.procs[p]) {
      InsertLoses(s, p, t);
    } else if Appends(s.procs[p]) {
      AppendLoses(s, p, t);
    } else {
      FindLoses(s, p, t);
    }
  }

  /** In step i a process dies with record j in hand. */
  ghost predicate DiesWith(run: seq<State>, who: seq<nat>, i: nat, j: nat)
    requires i < |who| < |run|
  {
    && who[i] < |run[i].procs| && who[i] < |run[i + 1].procs|
    && Held(run[i].procs[who[i]]) == Some(j) && run[i + 1].procs[who[i]].Dead?
  }

  /** A record is lost if and only if a process died with it in hand. */
  lemma {:induction false} LostIff(n: nat, run: seq<State>, who: seq<nat>, k: nat, j: nat)
    requires IsRun(n, run, who) && k < |run|
    ensures j < |run[k].ch.own| && run[k].ch.own[j] == LOST <==> exists i :: 0 <= i < k && DiesWith(run, who, i, j)
  {
    hide Next, Enabled, Inv, DiesWith, Held;
    if k > 0 {
      LostIff(n, run, who, k - 1, j);
      RunInv(n, run, who, k - 1);
      assert who[k - 1] < |run[k - 1].procs|;
      LosesNext(run[k - 1], who[k - 1], run[k - 1 + 1]);
      LostStep(n, run, who, k, j);
    } else {
      NothingYet(n);
    }
  }

  lemma NothingYet(n: nat)
    ensures Init(n).ch.own == []
  {
  }

  lemma LostStep(n: nat, run: seq<State>, who: seq<nat>, k: nat, j: nat)
    requires 0 < k < |run| == |who| + 1 && who[k - 1] < |run[k - 1].procs| == |run[k].procs|
    requires Inv(run[k - 1]) && Loses(run[k - 1], who[k - 1], run[k])
    ensures j < |run[k].ch.own| && run[k].ch.own[j] == LOST <==>
      (j < |run[k - 1].ch.own| && run[k - 1].ch.own[j] == LOST) || DiesWith(run, who, k - 1, j)
  {
    hide Inv, Core, PcOk, Held;
    var s, p := run[k - 1], who[k - 1];
    InvPc(s, p);
    PlacedCore(s);
    if Held(s.procs[p]) == Some(j) {
      HeldIsOwned(s, p, j);
    }
  }

  lemma {:induction false} DeadStays(n: nat, run: seq<State>, who: seq<nat>, i: nat, k: nat, p: nat)
    requires IsRun(n, run, who) && i <= k < |run| && p < |run[i].procs| && run[i].procs[p].Dead?
    ensures p < |run[k].procs| && run[k].procs[p].Dead?
    ensures forall h :: i <= h < k ==> who[h] != p
    decreases k
  {
    hide Next, Enabled, Init;
    if i < k {
      DeadStays(n, run, who, i, k - 1, p);
      StepsOnce(n, run, who, k - 1);
    }
  }

  /** A process dies once, with one record at most: two lost records were lost with
      two processes. */
  lemma LostApart(n: nat, run: seq<State>, who: seq<nat>, h: nat, i: nat, j: nat, l: nat)
    requires IsRun(n, run, who) && h < |who| && i < |who| && DiesWith(run, who, h, j) && DiesWith(run, who, i, l)
    ensures j != l ==> who[h] != who[i]
  {
    hide Next, Enabled, Init;
    if h < i {
      DeadStays(n, run, who, h + 1, i + 1, who[h]);
    } else if i < h {
      DeadStays(n, run, who, i + 1, h + 1, who[i]);
    }
  }

  // ---- Every run ------------------------------------------------------------

  /** Record j is on no list and in no hand. */
  ghost predicate Nowhere(s: State, j: nat) {
    && (forall i :: 0 <= i < |s.ch.lists| ==> j !in s.ch.lists[i])
    && (forall p :: 0 <= p < |s.procs| ==> Held(s.procs[p]) != Some(j))
  }

  lemma NowhereIff(s: State, j: nat)
    requires j < |s.ch.own| && OnePlace(s, j)
    ensures Nowhere(s, j) <==> s.ch.own[j] == LOST
  {
    hide Held;
    var o := s.ch.own[j];
    if o >= 0 {
      assert j in s.ch.lists[o];
    } else if o <= -2 {
      assert Held(s.procs[-2 - o]) == Some(j);
    }
  }

  /** In every state of every run each index record has one place, or none exactly if a
      process died with it in hand, who is dead still; no two records share a byte of
      the data file, and the pointers of a list that no process is taking a record off
      spell it. */
  lemma RecordsKeepApart(n: nat, run: seq<State>, who: seq<nat>, k: nat)
    requires IsRun(n, run, who) && k < |run|
    ensures var s := run[k];
      && C.Shape(s.ch) && C.Placed(s.ch) && |s.ch.own| == |s.recs| && |s.ch.lists| == NLISTS
      && (forall j :: 0 <= j < |s.recs| ==> OnePlace(s, j))
      && (forall j :: 0 <= j < |s.recs| ==>
            (Nowhere(s, j) <==> exists i :: 0 <= i < k && DiesWith(run, who, i, j)))
      && (forall i, j :: 0 <= i < k && DiesWith(run, who, i, j) ==> who[i] < |s.procs| && s.procs[who[i]].Dead?)
      && (forall i, j :: 0 <= i < j < |s.recs| ==> Apart(s.recs[i], s.recs[j]))
      && (forall i :: 0 <= i < NLISTS && (forall p :: 0 <= p < |s.procs| ==> !Touches(s.procs[p], i)) ==>
            C.LinkedList(s.ch, i))
  {
    var s := run[k];
    RunInv(n, run, who, k);
    hide Inv, IsRun, Hash, OnePlace, Apart, Nowhere, DiesWith, Touches;
    InvParts(s);
    PlacedCore(s);
    forall j | 0 <= j < |s.recs|
      ensures OnePlace(s, j) && (Nowhere(s, j) <==> exists i :: 0 <= i < k && DiesWith(run, who, i, j))
    {
      PlaceOf(s, j);
      NowhereIff(s, j);
      LostIff(n, run, who, k, j);
    }
    forall i, j | 0 <= i < k && DiesWith(run, who, i, j)
      ensures who[i] < |s.procs| && s.procs[who[i]].Dead?
    {
      DeadIn(n, run, who, i, j, k);
    }
    forall i | 0 <= i < NLISTS && forall p :: 0 <= p < |s.procs| ==> !Touches(s.procs[p], i)
      ensures C.LinkedList(s.ch, i)
    {
      UnlockedLinked(s, i);
    }
  }

  lemma DeadIn(n: nat, run: seq<State>, who: seq<nat>, i: nat, j: nat, k: nat)
    requires IsRun(n, run, who) && i < k < |run| && DiesWith(run, who, i, j)
    ensures who[i] < |run[k].procs| && run[k].procs[who[i]].Dead?
  {
    hide Next, Enabled, Init;
    DeadStays(n, run, who, i + 1, k, who[i]);
  }

  /** While nobody has died, every record is on one list or in one hand. */
  lemma NothingLost(n: nat, run: seq<State>, who: seq<nat>, k: nat, j: nat)
    requires IsRun(n, run, who) && k < |run| && j < |run[k].recs|
    requires forall p :: 0 <= p < |run[k].procs| ==> !run[k].procs[p].Dead?
    ensures !Nowhere(run[k], j)
  {
    hide Next, Enabled, Init, Nowhere, DiesWith, OnePlace, Apart;
    RecordsKeepApart(n, run, who, k);
  }
}
