/** Why one process's step leaves the others' program points alone. */
module DbFrame {
  import opened Values
  import opened IndexFile
  import opened DbStore
  import opened DbShared
  import opened DbInterleave
  import C = Chains

  /** The lock that covers list i is held for writing. */
  predicate Touches(pc: Pc, i: int) {
    (i == FREE && HoldsFree(pc)) || (Writes(pc) && Chain(pc) == Some(i))
  }

  /** Process p may change record j: it is on a list p has locked, or in p's
      hand. */
  ghost predicate Mine(s: State, p: nat, j: nat)
    requires p < |s.procs| && j < |s.ch.own|
  {
    s.ch.own[j] == Tag(p) || (s.ch.own[j] >= 0 && Touches(s.procs[p], s.ch.own[j]))
  }

  ghost predicate SameRec(s: State, t: State, j: nat)
    requires Core(s) && Core(t) && j < |s.recs| && j < |t.recs|
  {
    t.recs[j] == s.recs[j] && t.ch.own[j] == s.ch.own[j] && Data(t.dat, t.recs[j]) == Data(s.dat, s.recs[j])
  }

  ghost predicate SameKey(s: State, t: State, k: Key) {
    (k in t.at <==> k in s.at) && (k in s.at ==> t.at[k] == s.at[k])
  }

  /** Everything p has no lock on is as it was. */
  ghost predicate Frame(s: State, p: nat, t: State)
    requires Core(s) && Core(t) && p < |s.procs|
  {
    var pc := s.procs[p];
    && |t.procs| == |s.procs| && (forall q :: 0 <= q < |s.procs| && q != p ==> t.procs[q] == s.procs[q])
    && |s.recs| <= |t.recs| && s.log <= t.log
    && (forall i :: 0 <= i < NLISTS && !Touches(pc, i) ==>
          t.ch.lists[i] == s.ch.lists[i] && t.ch.heads[i] == s.ch.heads[i])
    && (forall j :: 0 <= j < |s.recs| && !Mine(s, p, j) ==> SameRec(s, t, j))
    && (forall k :: !(Writes(pc) && Chain(pc) == Some(ChainOf(k))) ==> SameKey(s, t, k))
  }

  ghost predicate PendFrame(s: State, p: nat, t: State)
    requires Core(s) && Core(t) && p < |s.procs| <= |t.procs|
  {
    forall q :: 0 <= q < |s.procs| && q != p && Pending(s.procs[q]).Some? && s.procs[q].op.DoStore? ==>
      PendingOk(t, Pending(s.procs[q]).value, s.procs[q].op.data)
  }

  // ---- A list somebody else has locked --------------------------------------

  lemma OtherChain(s: State, p: nat, q: nat)
    requires Excl(s) && p < |s.procs| && q < |s.procs| && p != q && InCall(s.procs[q])
    ensures !Touches(s.procs[p], ChainOf(s.procs[q].op.key))
  {
    assert Compatible(s.procs[p], s.procs[q]);
  }

  lemma OtherFree(s: State, p: nat, q: nat)
    requires Excl(s) && p < |s.procs| && q < |s.procs| && p != q && HoldsFree(s.procs[q])
    ensures !Touches(s.procs[p], FREE)
  {
    assert Compatible(s.procs[p], s.procs[q]);
  }

  /** The members of a list p has not locked. */
  lemma Members(s: State, p: nat, t: State, i: nat)
    requires Core(s) && Core(t) && p < |s.procs| && Frame(s, p, t) && i < NLISTS && !Touches(s.procs[p], i)
    ensures t.ch.lists[i] == s.ch.lists[i] && t.ch.heads[i] == s.ch.heads[i]
    ensures forall b :: 0 <= b < |s.ch.lists[i]| ==> var j := s.ch.lists[i][b];
      j < |s.recs| && t.recs[j] == s.recs[j] && t.ch.ptrs[j] == s.ch.ptrs[j] && t.ch.offs[j] == s.ch.offs[j]
    ensures C.SameList(s.ch, t.ch, i)
  {
    hide KeysOk, DataOk;
    forall b | 0 <= b < |s.ch.lists[i]|
      ensures var j := s.ch.lists[i][b];
        j < |s.recs| && t.recs[j] == s.recs[j] && t.ch.ptrs[j] == s.ch.ptrs[j] && t.ch.offs[j] == s.ch.offs[j]
    {
      var j := s.ch.lists[i][b];
      assert s.ch.own[j] == i;
      assert !Mine(s, p, j);
      assert SameRec(s, t, j);
      assert t.recs[j].ptr == t.ch.ptrs[j] && s.recs[j].ptr == s.ch.ptrs[j];
    }
  }

  lemma PtrToSame(s: State, t: State, l: seq<nat>, a: nat)
    requires Core(s) && Core(t) && |s.recs| <= |t.recs| && forall b :: 0 <= b < |l| ==> l[b] < |s.recs|
    ensures C.PtrTo(t.ch.offs, l, a) == C.PtrTo(s.ch.offs, l, a)
  {
  }

  // ---- Stability of the program points --------------------------------------

  lemma WalksStable(s: State, p: nat, t: State, op: Op, a: nat, prev: int, cur: int)
    requires Core(s) && Core(t) && p < |s.procs| && Frame(s, p, t) && !Touches(s.procs[p], ChainOf(op.key))
    requires WalksChain(s, op, a, prev, cur)
    ensures WalksChain(t, op, a, prev, cur)
  {
    hide Core, Frame, Hash;
    Members(s, p, t, ChainOf(op.key));
    FrameSize(s, p, t);
    PtrToSame(s, t, s.ch.lists[ChainOf(op.key)], a);
  }

  lemma FrameSize(s: State, p: nat, t: State)
    requires Core(s) && Core(t) && p < |s.procs| && Frame(s, p, t)
    ensures |s.recs| <= |t.recs| && s.log <= t.log && |s.procs| == |t.procs|
    ensures |s.ch.lists| == |t.ch.lists| == |s.ch.heads| == |t.ch.heads| == NLISTS
    ensures |s.ch.offs| == |s.recs| && |t.ch.offs| == |t.recs|
  {
  }

  lemma WalksFreeStable(s: State, p: nat, t: State, a: nat, prev: int, cur: int)
    requires Core(s) && Core(t) && p < |s.procs| && Frame(s, p, t) && !Touches(s.procs[p], FREE)
    requires WalksFree(s, a, prev, cur)
    ensures WalksFree(t, a, prev, cur)
  {
    hide Core, Frame;
    Members(s, p, t, FREE);
    FrameSize(s, p, t);
    PtrToSame(s, t, s.ch.lists[FREE], a);
  }

  lemma LocatedStable(s: State, p: nat, t: State, op: Op, j: nat, a: nat, prev: int, save: int)
    requires Core(s) && Core(t) && p < |s.procs| && Frame(s, p, t) && !Touches(s.procs[p], ChainOf(op.key))
    requires Located(s, op, j, a, prev, save)
    ensures Located(t, op, j, a, prev, save)
  {
    hide Core, Frame, Hash;
    Members(s, p, t, ChainOf(op.key));
    FrameSize(s, p, t);
  }

  /** A key on a chain p has not locked. */
  lemma KeyStable(s: State, p: nat, t: State, k: Key)
    requires Core(s) && Core(t) && p < |s.procs| && Frame(s, p, t) && !Touches(s.procs[p], ChainOf(k))
    ensures SameKey(s, t, k) && t.ch.heads[ChainOf(k)] == s.ch.heads[ChainOf(k)]
  {
    hide Core, Hash;
    FrameSize(s, p, t);
  }

  lemma LeavingStable(s: State, p: nat, t: State, op: Op, j: nat, a: nat, prev: int, save: int)
    requires Core(s) && Core(t) && p < |s.procs| && Frame(s, p, t) && !Touches(s.procs[p], ChainOf(op.key))
    requires Leaving(s, op, j, a, prev, save)
    ensures Leaving(t, op, j, a, prev, save)
  {
    hide Core, Frame, Hash;
    Members(s, p, t, ChainOf(op.key));
    FrameSize(s, p, t);
    PtrToSame(s, t, s.ch.lists[ChainOf(op.key)], a);
    PlacedCore(s);
    PlacedCore(t);
    C.SameListLinkedBut(s.ch, t.ch, ChainOf(op.key), a, j + 1);
    KeyStable(s, p, t, op.key);
  }

  lemma PlacedCore(s: State)
    requires Core(s)
    ensures C.Shape(s.ch) && C.Placed(s.ch) && |s.ch.lists| == |s.ch.heads| == NLISTS
    ensures |s.recs| == |s.ch.own| == |s.ch.ptrs| == |s.ch.offs|
    ensures KeysOk(s.ch.own, s.recs, s.at) && DataOk(s.recs, s.dat)
  {
  }

  /** A record in another process's hand. */
  lemma HasStable(s: State, p: nat, t: State, q: nat, j: nat)
    requires Core(s) && Core(t) && p < |s.procs| && Frame(s, p, t) && p != q && Has(s, q, j)
    ensures Has(t, q, j) && t.recs[j] == s.recs[j] && RegionIn(s.dat, s.recs[j]) && RegionIn(t.dat, t.recs[j])
    ensures Data(t.dat, t.recs[j]) == Data(s.dat, s.recs[j])
  {
    hide KeysOk;
    assert !Mine(s, p, j);
    assert SameRec(s, t, j);
  }

  /** A live record on a chain p has not locked. */
  lemma LiveStable(s: State, p: nat, t: State, k: Key)
    requires Core(s) && Core(t) && p < |s.procs| && Frame(s, p, t) && !Touches(s.procs[p], ChainOf(k)) && k in s.at
    ensures k in t.at && t.at[k] == s.at[k] && s.at[k] < |s.recs| <= |t.recs| && t.recs[s.at[k]] == s.recs[s.at[k]]
    ensures RegionIn(s.dat, s.recs[s.at[k]]) && RegionIn(t.dat, t.recs[s.at[k]])
    ensures Data(t.dat, t.recs[s.at[k]]) == Data(s.dat, s.recs[s.at[k]])
  {
    hide Hash;
    KeyStable(s, p, t, k);
    var j := s.at[k];
    assert s.ch.own[j] == ChainOf(k);
    assert !Mine(s, p, j);
    assert SameRec(s, t, j);
  }

  lemma StableDelete(s: State, p: nat, t: State, q: nat)
    requires Core(s) && Core(t) && p < |s.procs| && Frame(s, p, t) && PendFrame(s, p, t)
    requires Excl(s) && q < |s.procs| && q != p && PcOk(s, q, s.procs[q])
    requires Deletes(s.procs[q])
    ensures PcOk(t, q, s.procs[q])
  {
    hide Core, Frame, PendFrame, Excl, Hash, WalksChain, WalksFree, Located, Leaving, Has, Data, PendingOk, KeysOk;
    hide DataOk, C.Placed;
    var pc := s.procs[q];
    OtherChain(s, p, q);
    if pc.DelWant? || pc.DelDat? {
      LocatedStable(s, p, t, pc.op, pc.j, pc.a, pc.prev, pc.save);
    } else {
      FrameSize(s, p, t);
      PlacedCore(s);
      PlacedCore(t);
      KeyStable(s, p, t, pc.op.key);
      if !pc.DelUnlock? {
        LeavingStable(s, p, t, pc.op, pc.j, pc.a, pc.prev, pc.save);
      }
      if pc.DelFree? || pc.DelIdx? || pc.DelHead? {
        hide PcOk;
        StableLeaving(s, p, t, q);
      }
    }
  }

  lemma StableLeaving(s: State, p: nat, t: State, q: nat)
    requires Core(s) && Core(t) && p < |s.procs| && Frame(s, p, t) && PendFrame(s, p, t)
    requires Excl(s) && q < |s.procs| && q != p && PcOk(s, q, s.procs[q])
    requires s.procs[q].DelFree? || s.procs[q].DelIdx? || s.procs[q].DelHead?
    requires var pc := s.procs[q]; Leaving(t, pc.op, pc.j, pc.a, pc.prev, pc.save)
    ensures PcOk(t, q, s.procs[q])
  {
    hide Core, Frame, PendFrame, Excl, Hash, WalksChain, WalksFree, Located, Leaving, Has, Data, PendingOk, KeysOk;
    hide DataOk, C.Placed;
    FrameSize(s, p, t);
    PlacedCore(s);
    PlacedCore(t);
    var pc := s.procs[q];
    OtherFree(s, p, q);
    Members(s, p, t, FREE);
    HasInRange(s, q, pc.j);
    HasStable(s, p, t, q, pc.j);
  }

  lemma StableInsert(s: State, p: nat, t: State, q: nat)
    requires Core(s) && Core(t) && p < |s.procs| && Frame(s, p, t) && PendFrame(s, p, t)
    requires Excl(s) && q < |s.procs| && q != p && PcOk(s, q, s.procs[q])
    requires Inserts(s.procs[q])
    ensures PcOk(t, q, s.procs[q])
  {
    hide Core, Frame, PendFrame, Excl, Hash, WalksChain, WalksFree, Located, Leaving, Has, Data, PendingOk, KeysOk;
    hide DataOk, C.Placed;
    FrameSize(s, p, t);
    PlacedCore(s);
    PlacedCore(t);
    var pc := s.procs[q];
    OtherChain(s, p, q);
    KeyStable(s, p, t, pc.op.key);
    if HoldsFree(pc) {
      OtherFree(s, p, q);
      Members(s, p, t, FREE);
    }
    if Held(pc).Some? {
      HasInRange(s, q, Held(pc).value);
      HasStable(s, p, t, q, Held(pc).value);
    }
    if pc.FFRec? {
      WalksFreeStable(s, p, t, pc.a, pc.prev, pc.cur);
    }
  }

  lemma StableAppend(s: State, p: nat, t: State, q: nat)
    requires Core(s) && Core(t) && p < |s.procs| && Frame(s, p, t) && PendFrame(s, p, t)
    requires Excl(s) && q < |s.procs| && q != p && PcOk(s, q, s.procs[q])
    requires Appends(s.procs[q])
    ensures PcOk(t, q, s.procs[q])
  {
    hide Core, Frame, PendFrame, Excl, Hash, WalksChain, WalksFree, Located, Leaving, Has, Data, PendingOk, KeysOk;
    hide DataOk, C.Placed;
    FrameSize(s, p, t);
    PlacedCore(s);
    PlacedCore(t);
    var pc := s.procs[q];
    OtherChain(s, p, q);
    KeyStable(s, p, t, pc.op.key);
    if Held(pc).Some? {
      HasInRange(s, q, Held(pc).value);
      HasStable(s, p, t, q, Held(pc).value);
    }
    if Pending(pc).Some? {
      PendingStable(s, p, t, q);
    }
  }

  lemma StableOther(s: State, p: nat, t: State, q: nat)
    requires Core(s) && Core(t) && p < |s.procs| && Frame(s, p, t) && PendFrame(s, p, t)
    requires Excl(s) && q < |s.procs| && q != p && PcOk(s, q, s.procs[q])
    requires !Deletes(s.procs[q]) && !Inserts(s.procs[q]) && !Appends(s.procs[q])
    ensures PcOk(t, q, s.procs[q])
  {
    hide Core, Frame, PendFrame, Excl, Hash, WalksChain, WalksFree, Located, Leaving, Has, Data, PendingOk, KeysOk;
    hide DataOk, C.Placed;
    FrameSize(s, p, t);
    PlacedCore(s);
    PlacedCore(t);
    var pc := s.procs[q];
    if InCall(pc) {
      OtherChain(s, p, q);
      KeyStable(s, p, t, pc.op.key);
    }
    match pc
    case FindRec(op, a, prev, cur) => WalksStable(s, p, t, op, a, prev, cur);
    case OverDat(op, j) => LiveStable(s, p, t, op.key);
    case _ =>
  }

  /** A step of p leaves what every other process knows true. */
  lemma Stable(s: State, p: nat, t: State, q: nat)
    requires Core(s) && Core(t) && p < |s.procs| && Frame(s, p, t) && PendFrame(s, p, t)
    requires Excl(s) && q < |s.procs| && q != p && PcOk(s, q, s.procs[q])
    ensures PcOk(t, q, s.procs[q])
  {
    hide Core, Frame, PendFrame, Excl, PcOk;
    if Deletes(s.procs[q]) {
      StableDelete(s, p, t, q);
    } else if Inserts(s.procs[q]) {
      StableInsert(s, p, t, q);
    } else if Appends(s.procs[q]) {
      StableAppend(s, p, t, q);
    } else {
      StableOther(s, p, t, q);
    }
  }

  lemma HasInRange(s: State, q: nat, j: nat)
    requires Core(s) && Has(s, q, j)
    ensures j < |s.recs| && RegionIn(s.dat, s.recs[j])
  {
  }

  lemma PendingStable(s: State, p: nat, t: State, q: nat)
    requires Core(s) && Core(t) && p < |s.procs| <= |t.procs| && PendFrame(s, p, t) && q < |s.procs| && q != p
    requires Pending(s.procs[q]).Some? && s.procs[q].op.DoStore?
    ensures PendingOk(t, Pending(s.procs[q]).value, s.procs[q].op.data)
  {
  }
}
