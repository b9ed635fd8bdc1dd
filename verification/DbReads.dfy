/** The steps that lock, unlock or read keep the invariant. */
module DbReads {
  import opened Values
  import opened DbStore
  import opened DbShared
  import opened DbInterleave
  import opened DbFrame
  import opened DbRuns
  import C = Chains

  lemma InvPc(s: State, p: nat)
    requires Inv(s) && p < |s.procs|
    ensures Core(s) && Excl(s) && PcOk(s, p, s.procs[p])
  {
  }

  lemma InvParts(s: State)
    requires Inv(s)
    ensures Core(s) && PcsOk(s) && Agree(s) && Linear(s.log)
  {
  }

  /** A step that takes no lock and changes nothing but the process. */
  lemma Walk(s: State, p: nat, pc: Pc)
    requires Inv(s) && p < |s.procs| && LocksWithin(pc, s.procs[p]) && SameHand(pc, s.procs[p])
    requires Core(s) && PcOk(s, p, pc)
    ensures Inv(Go(s, p, pc))
  {
    hide Inv, PcOk, Core, Hash;
    InvPc(s, p);
    EnterWithin(s, p, pc);
    Move(s, p, pc);
  }

  /** Position a of the walked chain. */
  lemma ChainStep(s: State, p: nat, op: Op, a: nat, prev: int, cur: int)
    requires Inv(s) && p < |s.procs| && s.procs[p] == FindRec(op, a, prev, cur)
    ensures Core(s) && Startable(op) && WalksChain(s, op, a, prev, cur)
    ensures var l := s.ch.lists[ChainOf(op.key)];
      && (cur == 0 <==> a == |l|)
      && (a < |l| ==> l[a] < |s.recs| && cur == l[a] + 1
                      && s.recs[l[a]].ptr == C.PtrTo(s.ch.offs, l, a + 1))
  {
    InvPc(s, p);
    ChainLinked(s, p);
    hide Inv, Hash, KeysOk, DataOk;
    var l := s.ch.lists[ChainOf(op.key)];
    if a < |l| {
      assert s.ch.own[l[a]] == ChainOf(op.key);
      C.LinkedCells(s.ch, ChainOf(op.key), a + 1);
    }
  }

  lemma FindHeadStep(s: State, p: nat, op: Op)
    requires Inv(s) && p < |s.procs| && s.procs[p] == FindHead(op)
    ensures Core(s) && Inv(Go(s, p, FindRec(op, 0, 0, s.ch.heads[ChainOf(op.key)])))
  {
    InvPc(s, p);
    ChainLinked(s, p);
    hide Inv, Hash, KeysOk, DataOk;
    Walk(s, p, FindRec(op, 0, 0, s.ch.heads[ChainOf(op.key)]));
  }

  lemma MissStep(s: State, p: nat, op: Op, a: nat, prev: int, cur: int)
    requires Inv(s) && p < |s.procs| && s.procs[p] == FindRec(op, a, prev, cur) && cur == 0
    ensures Inv(OnMiss(s, p, op))
  {
    hide Inv, Hash, KeysOk, DataOk, Core, Abs;
    InvPc(s, p);
    ChainStep(s, p, op, a, prev, cur);
    ChainHolds(s, op.key);
    Answers(s, p);
    match op
    case DoFetch(_) => Conclude(s, p, op, Value(None));
    case DoDelete(_) =>
      assert Abs(s.log) - {op.key} == Abs(s.log);
      Conclude(s, p, op, Code(-1));
    case DoStore(_, _, flag) =>
      if flag == REPLACE {
        Conclude(s, p, op, Code(-1));
      } else {
        Walk(s, p, ReadHead(op));
      }
  }

  lemma HitStep(s: State, p: nat, op: Op, a: nat, prev: int, cur: int)
    requires Inv(s) && p < |s.procs| && s.procs[p] == FindRec(op, a, prev, cur)
    requires 0 < cur <= |s.recs| && s.recs[cur - 1].key == op.key
    ensures Inv(OnHit(s, p, op, cur - 1, a, prev))
  {
    hide Inv, Hash, KeysOk, DataOk, Core, C.Placed, Abs, Data, PcOk, Located, WalksChain;
    var j := cur - 1;
    HitLocated(s, p, op, a, prev, cur);
    Answers(s, p);
    HitOk(s, p, op, j, a, prev);
    match op
    case DoFetch(_) => Walk(s, p, FetchDat(op, j));
    case DoDelete(_) => Walk(s, p, DelWant(op, j, a, prev, s.recs[j].ptr));
    case DoStore(_, data, flag) =>
      if flag == INSERT {
        Conclude(s, p, op, Code(1));
      } else if s.recs[j].datlen == |data| + 1 {
        Walk(s, p, OverDat(op, j));
      } else {
        Walk(s, p, DelWant(op, j, a, prev, s.recs[j].ptr));
      }
  }

  lemma HitLocated(s: State, p: nat, op: Op, a: nat, prev: int, cur: int)
    requires Inv(s) && p < |s.procs| && s.procs[p] == FindRec(op, a, prev, cur)
    requires 0 < cur <= |s.recs| && s.recs[cur - 1].key == op.key
    ensures Core(s) && Startable(op) && op.key in s.at && s.at[op.key] == cur - 1
    ensures Located(s, op, cur - 1, a, prev, s.recs[cur - 1].ptr)
  {
    hide Inv, Hash, KeysOk, DataOk, Core, C.Placed;
    ChainStep(s, p, op, a, prev, cur);
    ChainHolds(s, op.key);
  }

  /** Where a process that has found its key goes. */
  lemma HitOk(s: State, p: nat, op: Op, j: nat, a: nat, prev: int)
    requires Core(s) && Startable(op) && j < |s.recs| && op.key in s.at && s.at[op.key] == j
    requires Located(s, op, j, a, prev, s.recs[j].ptr)
    ensures op.DoFetch? ==> PcOk(s, p, FetchDat(op, j))
    ensures op.DoDelete? || (op.DoStore? && op.flag != INSERT) ==> PcOk(s, p, DelWant(op, j, a, prev, s.recs[j].ptr))
    ensures op.DoStore? && op.flag != INSERT && s.recs[j].datlen == |op.data| + 1 ==> PcOk(s, p, OverDat(op, j))
  {
    hide Core, Located, Hash;
  }

  lemma NextRecStep(s: State, p: nat, op: Op, a: nat, prev: int, cur: int)
    requires Inv(s) && p < |s.procs| && s.procs[p] == FindRec(op, a, prev, cur)
    requires 0 < cur <= |s.recs| && s.recs[cur - 1].key != op.key
    ensures Inv(Go(s, p, FindRec(op, a + 1, cur, s.recs[cur - 1].ptr)))
  {
    hide Inv, Hash, KeysOk, DataOk, Core;
    ChainStep(s, p, op, a, prev, cur);
    Walk(s, p, FindRec(op, a + 1, cur, s.recs[cur - 1].ptr));
  }

  lemma FetchStep(s: State, p: nat, op: Op, j: nat)
    requires Inv(s) && p < |s.procs| && s.procs[p] == FetchDat(op, j)
    ensures j < |s.recs| && RegionIn(s.dat, s.recs[j]) && Inv(Finish(s, p, op, Value(Some(Data(s.dat, s.recs[j])))))
  {
    hide Inv, Hash, KeysOk, DataOk, Core, Abs, Data;
    InvPc(s, p);
    Answers(s, p);
    Conclude(s, p, op, Value(Some(Data(s.dat, s.recs[j]))));
  }

  // ---- The free list --------------------------------------------------------

  lemma FreeStep(s: State, p: nat, op: Op, ptr: int, a: nat, prev: int, cur: int)
    requires Inv(s) && p < |s.procs| && s.procs[p] == FFRec(op, ptr, a, prev, cur)
    ensures Core(s) && Inserting(s, op, ptr) && WalksFree(s, a, prev, cur)
    ensures var l := s.ch.lists[FREE];
      && (cur == 0 <==> a == |l|)
      && (a < |l| ==> l[a] < |s.recs| && cur == l[a] + 1
                      && s.recs[l[a]].ptr == C.PtrTo(s.ch.offs, l, a + 1))
  {
    InvPc(s, p);
    FreeLinked(s);
    hide Inv, Hash, KeysOk, DataOk;
    var l := s.ch.lists[FREE];
    if a < |l| {
      assert s.ch.own[l[a]] == FREE;
      C.LinkedCells(s.ch, FREE, a + 1);
    }
  }

  lemma FFHeadStep(s: State, p: nat, op: Op, ptr: int)
    requires Inv(s) && p < |s.procs| && s.procs[p] == FFHead(op, ptr)
    ensures Core(s) && Inv(Go(s, p, FFRec(op, ptr, 0, 0, s.ch.heads[FREE])))
  {
    InvPc(s, p);
    FreeLinked(s);
    hide Inv, Hash, KeysOk, DataOk;
    Walk(s, p, FFRec(op, ptr, 0, 0, s.ch.heads[FREE]));
  }

  lemma FFRecStep(s: State, p: nat, op: Op, ptr: int, a: nat, prev: int, cur: int)
    requires Inv(s) && p < |s.procs| && s.procs[p] == FFRec(op, ptr, a, prev, cur)
    ensures op.DoStore? && 0 <= cur <= |s.recs|
    ensures Inv(Go(s, p,
           if cur == 0 then FFUnlock(op, ptr, None)
           else if |s.recs[cur - 1].key| == |op.key| && s.recs[cur - 1].datlen == |op.data| + 1
           then FFTake(op, ptr, a, prev, cur - 1)
           else FFRec(op, ptr, a + 1, cur, s.recs[cur - 1].ptr)))
  {
    hide Inv, Hash, KeysOk, DataOk, Core, C.Placed, Data, PcOk, WalksFree, Inserting;
    FFRecOk(s, p, op, ptr, a, prev, cur);
    var pc := if cur == 0 then FFUnlock(op, ptr, None)
              else if |s.recs[cur - 1].key| == |op.key| && s.recs[cur - 1].datlen == |op.data| + 1
              then FFTake(op, ptr, a, prev, cur - 1)
              else FFRec(op, ptr, a + 1, cur, s.recs[cur - 1].ptr);
    Walk(s, p, pc);
  }

  lemma FFRecOk(s: State, p: nat, op: Op, ptr: int, a: nat, prev: int, cur: int)
    requires Inv(s) && p < |s.procs| && s.procs[p] == FFRec(op, ptr, a, prev, cur)
    ensures Core(s) && op.DoStore? && 0 <= cur <= |s.recs|
    ensures PcOk(s, p,
           if cur == 0 then FFUnlock(op, ptr, None)
           else if |s.recs[cur - 1].key| == |op.key| && s.recs[cur - 1].datlen == |op.data| + 1
           then FFTake(op, ptr, a, prev, cur - 1)
           else FFRec(op, ptr, a + 1, cur, s.recs[cur - 1].ptr))
  {
    hide Inv, Hash, KeysOk, DataOk, Core, C.Placed, Data, WalksChain, Located, Leaving, Has, Appending, Ready;
    hide PendingOk;
    FreeStep(s, p, op, ptr, a, prev, cur);
    PlacedCore(s);
    assert cur != 0 ==> a < |s.ch.lists[FREE]|;
  }
}
