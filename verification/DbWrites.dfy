/** The steps that write keep the invariant. */
module DbWrites {
  import opened Values
  import opened Ascii
  import opened IndexFile
  import opened Layout
  import opened DbStore
  import opened DbShared
  import opened DbInterleave
  import opened DbFrame
  import opened DbRuns
  import opened DbReads
  import D = DbSteps
  import C = Chains

  // ---- Common parts ---------------------------------------------------------

  /** A list p has locked and is not taking apart. */
  lemma TouchedLinked(s: State, p: nat, i: nat)
    requires Inv(s) && p < |s.procs| && i < NLISTS && Touches(s.procs[p], i) && Breaks(s.procs[p]) != Some(i)
    ensures C.Shape(s.ch) && C.Placed(s.ch) && |s.ch.lists| == NLISTS
    ensures C.LinkedList(s.ch, i)
  {
    hide Inv, Hash, Core;
    FreeLinked(s);
    if i != FREE {
      ChainLinked(s, p);
    }
  }

  /** No data moved, no record gained: the others' appended data is in place. */
  lemma PendSame(s: State, p: nat, t: State)
    requires Core(s) && Core(t) && p < |s.procs| <= |t.procs| && PcsOk(s)
    requires t.dat == s.dat && |t.recs| == |s.recs|
    requires forall j :: 0 <= j < |s.recs| ==>
      t.recs[j].datoff == s.recs[j].datoff && t.recs[j].datlen == s.recs[j].datlen
    ensures PendFrame(s, p, t)
  {
    hide KeysOk, DataOk, C.Placed, Hash;
    forall q | 0 <= q < |s.procs| && q != p && Pending(s.procs[q]).Some? && s.procs[q].op.DoStore?
      ensures PendingOk(t, Pending(s.procs[q]).value, s.procs[q].op.data)
    {
      var pc := s.procs[q];
      assert PcOk(s, q, pc);
      forall j | 0 <= j < |t.recs|
        ensures Apart(t.recs[j], Region(Pending(pc).value, pc.op.data))
      {
        assert Apart(s.recs[j], Region(Pending(pc).value, pc.op.data));
      }
    }
  }

  lemma PendingOf(s: State, q: nat)
    requires Core(s) && q < |s.procs| && PcOk(s, q, s.procs[q]) && Pending(s.procs[q]).Some?
    ensures s.procs[q].op.DoStore? && PendingOk(s, Pending(s.procs[q]).value, s.procs[q].op.data)
  {
  }

  /** One record's data rewritten in place. */
  lemma PendOverwrite(s: State, p: nat, t: State, j: nat, data: seq<byte>)
    requires Core(s) && Core(t) && p < |s.procs| <= |t.procs| && PcsOk(s)
    requires j < |s.recs| && |data| + 1 == s.recs[j].datlen && RegionIn(s.dat, s.recs[j])
    requires t.dat == Splice(s.dat, s.recs[j].datoff, data + [NEWLINE]) && t.recs == s.recs
    ensures PendFrame(s, p, t)
  {
    hide Core, KeysOk, DataOk, C.Placed, Hash, PcOk, Splice;
    forall q | 0 <= q < |s.procs| && q != p && Pending(s.procs[q]).Some? && s.procs[q].op.DoStore?
      ensures PendingOk(t, Pending(s.procs[q]).value, s.procs[q].op.data)
    {
      var off, d := Pending(s.procs[q]).value, s.procs[q].op.data;
      assert PcOk(s, q, s.procs[q]);
      PendingOf(s, q);
      assert Apart(s.recs[j], Region(off, d));
      D.SpliceOutside(s.dat, s.recs[j].datoff, data + [NEWLINE], off, off + |d| + 1);
    }
  }

  /** The plain map and the live records change in step, key by key. */
  lemma AgreeElsewhere(s: State, p: nat, t: State, k: Key)
    requires Core(s) && Core(t) && AgreeOn(s, k) && p < |s.procs| == |t.procs|
    requires forall q :: 0 <= q < |s.procs| && q != p ==> t.procs[q] == s.procs[q]
    requires Flux(s.procs[p]) == Some(k) <==> Flux(t.procs[p]) == Some(k)
    requires SameKey(s, t, k) && (k in s.at ==> Data(t.dat, t.recs[t.at[k]]) == Data(s.dat, s.recs[s.at[k]]))
    requires (k in Abs(s.log) <==> k in Abs(t.log)) && (k in Abs(s.log) ==> Abs(t.log)[k] == Abs(s.log)[k])
    ensures AgreeOn(t, k)
  {
    hide Abs, Data;
    if InFlux(s, k) {
      var q :| 0 <= q < |s.procs| && Flux(s.procs[q]) == Some(k);
      assert Flux(t.procs[q]) == Some(k);
    }
    if InFlux(t, k) {
      var q :| 0 <= q < |t.procs| && Flux(t.procs[q]) == Some(k);
      assert Flux(s.procs[q]) == Some(k);
    }
  }

  // ---- Rewriting the record in hand -----------------------------------------

  lemma HandCore(s: State, j: nat, key: Key, ptr: int)
    requires Core(s) && j < |s.recs| && s.ch.own[j] < 0
    ensures Core(WriteIdx(s, j, key, ptr))
  {
    var t := WriteIdx(s, j, key, ptr);
    assert s.ch.own == s.ch.own[j := s.ch.own[j]];
    D.OrphanKeys(s.ch.own, s.recs, s.at, t.recs, j, s.ch.own[j]);
    D.SameRegions(s.recs, t.recs, s.dat);
    hide KeysOk, DataOk;
    assert C.Placed(t.ch);
  }

  lemma HandFrame(s: State, p: nat, j: nat, key: Key, ptr: int, pc: Pc)
    requires Core(s) && p < |s.procs| && Has(s, p, j) && Core(WriteIdx(s, j, key, ptr))
    ensures Frame(s, p, Go(WriteIdx(s, j, key, ptr), p, pc))
  {
    var t := Go(WriteIdx(s, j, key, ptr), p, pc);
    hide KeysOk, C.Placed;
    forall x | 0 <= x < |s.recs| && !Mine(s, p, x)
      ensures SameRec(s, t, x)
    {
    }
  }

  lemma HandLinks(s: State, p: nat, j: nat, key: Key, ptr: int, i: nat)
    requires Core(s) && j < |s.recs| && s.ch.own[j] < 0 && i < NLISTS && Core(WriteIdx(s, j, key, ptr))
    ensures C.SameList(s.ch, WriteIdx(s, j, key, ptr).ch, i)
  {
    hide KeysOk, DataOk;
    forall b | 0 <= b < |s.ch.lists[i]|
      ensures s.ch.lists[i][b] != j
    {
      assert s.ch.own[s.ch.lists[i][b]] == i;
    }
  }

  /** `_db_writeidx` over the record in hand. */
  lemma RewriteHand(s: State, p: nat, j: nat, key: Key, ptr: int, pc: Pc)
    requires Inv(s) && p < |s.procs| && Core(s) && Has(s, p, j)
    requires LocksWithin(pc, s.procs[p]) && SameHand(pc, s.procs[p])
    requires Core(WriteIdx(s, j, key, ptr)) && PcOk(WriteIdx(s, j, key, ptr), p, pc)
    ensures Inv(Go(WriteIdx(s, j, key, ptr), p, pc))
  {
    hide Inv, Core, Frame, HeldStep, PendFrame, LinkStep, PendStep, Agree, PcOk, CanEnter, Hash, Linear, Abs;
    hide Excl, HeldOk, PendingsApart, PcsOk, KeysOk, DataOk, C.Placed, LocksWithin, SameHand;
    InvParts(s);
    InvRest(s);
    PlacedCore(s);
    var u := WriteIdx(s, j, key, ptr);
    var t := Go(u, p, pc);
    HandRest(s, p, j, key, ptr, pc);
    HandFrame(s, p, j, key, ptr, pc);
    HandHeld(s, p, j, key, ptr, pc);
    HandSizes(s, p, j, key, ptr, pc);
    PendSame(s, p, t);
    EnterWithin(s, p, pc);
    HandLinkStep(s, p, j, key, ptr, pc);
    PcOkAnywhere(u, t, p, pc);
    Preserve(s, p, t);
  }

  lemma HandSizes(s: State, p: nat, j: nat, key: Key, ptr: int, pc: Pc)
    requires p < |s.procs| && j < |s.recs| == |s.ch.ptrs|
    ensures var t := Go(WriteIdx(s, j, key, ptr), p, pc);
      && t.dat == s.dat && |t.recs| == |s.recs| && |t.procs| == |s.procs| && t.procs[p] == pc
      && forall x :: 0 <= x < |s.recs| ==> t.recs[x].datoff == s.recs[x].datoff && t.recs[x].datlen == s.recs[x].datlen
  {
  }

  lemma HandLinkStep(s: State, p: nat, j: nat, key: Key, ptr: int, pc: Pc)
    requires Inv(s) && p < |s.procs| && Core(s) && Has(s, p, j) && Core(WriteIdx(s, j, key, ptr))
    requires SameHand(pc, s.procs[p]) && Core(Go(WriteIdx(s, j, key, ptr), p, pc))
    ensures LinkStep(s, p, Go(WriteIdx(s, j, key, ptr), p, pc))
  {
    var t := Go(WriteIdx(s, j, key, ptr), p, pc);
    hide Inv, KeysOk, DataOk, Hash, Core, C.Placed, C.LinkedList, C.SameList, Touches, Breaks;
    PlacedCore(s);
    PlacedCore(t);
    forall i | 0 <= i < NLISTS && Touches(s.procs[p], i) && Breaks(pc) != Some(i)
      ensures C.LinkedList(t.ch, i)
    {
      TouchedLinked(s, p, i);
      HandLinks(s, p, j, key, ptr, i);
      C.SameListLinked(s.ch, t.ch, i);
    }
  }

  lemma HandHeld(s: State, p: nat, j: nat, key: Key, ptr: int, pc: Pc)
    requires Inv(s) && p < |s.procs| && j < |s.recs| == |s.ch.ptrs| && SameHand(pc, s.procs[p])
    ensures HeldStep(s, p, Go(WriteIdx(s, j, key, ptr), p, pc))
  {
    hide Core, Agree, LinkOk, PcOk;
  }

  lemma PendStepSame(s: State, p: nat, pc: Pc)
    requires PendingsApart(s) && p < |s.procs| && Pending(pc) == Pending(s.procs[p])
    requires Pending(pc).Some? ==> pc.op == s.procs[p].op
    ensures PendStep(s, p, pc)
  {
    forall q | 0 <= q < |s.procs| && q != p
      ensures PendApart(pc, s.procs[q]) && PendApart(s.procs[q], pc)
    {
      assert PendApart(s.procs[p], s.procs[q]) && PendApart(s.procs[q], s.procs[p]);
    }
  }

  lemma HandRest(s: State, p: nat, j: nat, key: Key, ptr: int, pc: Pc)
    requires Inv(s) && p < |s.procs| && Core(s) && Has(s, p, j) && SameHand(pc, s.procs[p])
    requires Core(WriteIdx(s, j, key, ptr))
    ensures var t := Go(WriteIdx(s, j, key, ptr), p, pc);
      Core(t) && PendStep(s, p, pc) && Agree(t) && Linear(t.log)
  {
    hide LinkOk, PcsOk, Abs, C.Placed, Linear, PendingsApart, HeldOk, Excl, PendStep, AgreeOn, KeysOk, DataOk;
    var t := Go(WriteIdx(s, j, key, ptr), p, pc);
    PendStepSame(s, p, pc);
    assert Core(t);
    forall k
      ensures AgreeOn(t, k)
    {
      assert AgreeOn(s, k);
      HandAgrees(s, p, j, key, ptr, pc, k);
    }
  }

  lemma HandAgrees(s: State, p: nat, j: nat, key: Key, ptr: int, pc: Pc, k: Key)
    requires p < |s.procs| && Core(s) && Has(s, p, j) && SameHand(pc, s.procs[p])
    requires Core(Go(WriteIdx(s, j, key, ptr), p, pc)) && AgreeOn(s, k)
    ensures AgreeOn(Go(WriteIdx(s, j, key, ptr), p, pc), k)
  {
    hide Abs, C.Placed, DataOk, AgreeOn, Hash;
    AgreeElsewhere(s, p, Go(WriteIdx(s, j, key, ptr), p, pc), k);
  }

  // ---- Rewriting data in place ----------------------------------------------

  /** `_db_writedat` over the data of record j, which is p's to change. */
  lemma OverwriteCore(s: State, j: nat, data: seq<byte>)
    requires Core(s) && j < |s.recs| && |data| + 1 == s.recs[j].datlen
    ensures RegionIn(s.dat, s.recs[j])
    ensures var t := WriteDat(s, s.recs[j].datoff, data);
      && Core(t) && Data(t.dat, t.recs[j]) == data
      && forall x :: 0 <= x < |s.recs| && x != j ==> Data(t.dat, t.recs[x]) == Data(s.dat, s.recs[x])
  {
    D.OverwriteData(s.recs, s.dat, j, data);
    hide KeysOk, DataOk, C.Placed, Splice;
  }

  lemma OverwriteFrame(s: State, p: nat, j: nat, data: seq<byte>, t: State)
    requires Core(s) && p < |s.procs| && j < |s.recs| && |data| + 1 == s.recs[j].datlen && Mine(s, p, j)
    requires RegionIn(s.dat, s.recs[j]) && |t.procs| == |s.procs|
    requires t == WriteDat(s, s.recs[j].datoff, data).(procs := s.procs[p := t.procs[p]], log := t.log)
    requires s.log <= t.log
    ensures Core(t) && Frame(s, p, t) && Data(t.dat, t.recs[j]) == data
    ensures forall x :: 0 <= x < |s.recs| && x != j ==> Data(t.dat, t.recs[x]) == Data(s.dat, s.recs[x])
  {
    OverwriteCore(s, j, data);
    hide KeysOk, DataOk, C.Placed, Splice, Hash, Data;
    forall x | 0 <= x < |s.recs| && !Mine(s, p, x)
      ensures SameRec(s, t, x)
    {
    }
  }

  lemma HandsStay(s: State, p: nat, t: State)
    requires HeldOk(s) && p < |s.procs| == |t.procs| && t.ch.own == s.ch.own
    requires SameHand(t.procs[p], s.procs[p]) || (EmptyHanded(s.procs[p]) && t.procs[p].Ret?)
    ensures HeldStep(s, p, t)
  {
  }

  /** Links and hands do not change when only data is written. */
  lemma DataOnly(s: State, p: nat, t: State)
    requires Inv(s) && p < |s.procs| && Core(s) && Core(t) && t.ch == s.ch && |t.procs| == |s.procs|
    requires SameHand(t.procs[p], s.procs[p]) || (EmptyHanded(s.procs[p]) && t.procs[p].Ret?)
    ensures LinkStep(s, p, t) && HeldStep(s, p, t) && PendStep(s, p, t.procs[p])
  {
    hide Inv, KeysOk, DataOk, Hash, Core, HeldOk, PendStep, HeldStep, Excl, PendingsApart;
    InvRest(s);
    PlacedCore(s);
    PlacedCore(t);
    PendStepSame(s, p, t.procs[p]);
    HandsStay(s, p, t);
    forall i | 0 <= i < NLISTS && Touches(s.procs[p], i) && Breaks(t.procs[p]) != Some(i)
      ensures C.LinkedList(t.ch, i)
    {
      TouchedLinked(s, p, i);
    }
  }

  lemma ReDatStep(s: State, p: nat, op: Op, ptr: int, j: nat)
    requires Inv(s) && p < |s.procs| && s.procs[p] == ReDat(op, ptr, j)
    ensures op.DoStore? && j < |s.recs| && RegionIn(s.dat, s.recs[j])
    ensures Inv(Go(WriteDat(s, s.recs[j].datoff, op.data), p, ReIdx(op, ptr, j)))
  {
    hide Inv, Hash, Data, Abs, Linear, Core, Frame, PendFrame, LinkStep, HeldStep, PendStep, CanEnter, PcsOk, Agree;
    hide PcOk, Excl, HeldOk, PendingsApart, KeysOk, DataOk, C.Placed, Splice;
    ReDatKnows(s, p, op, ptr, j);
    InvParts(s);
    var pc := ReIdx(op, ptr, j);
    var t := Go(WriteDat(s, s.recs[j].datoff, op.data), p, pc);
    OverwriteFrame(s, p, j, op.data, t);
    DataOnly(s, p, t);
    PendOverwrite(s, p, t, j, op.data);
    EnterWithin(s, p, pc);
    HandAgree(s, p, t, j);
    ReIdxOk(s, t, p, op, ptr, j);
    Preserve(s, p, t);
  }

  lemma ReDatKnows(s: State, p: nat, op: Op, ptr: int, j: nat)
    requires Inv(s) && p < |s.procs| && s.procs[p] == ReDat(op, ptr, j)
    ensures Core(s) && Excl(s) && Inserting(s, op, ptr) && Has(s, p, j) && Fits(s, op, j) && RegionIn(s.dat, s.recs[j])
  {
    hide Inv, Hash, Data, KeysOk, C.Placed;
    InvPc(s, p);
  }

  lemma ReIdxOk(s: State, t: State, p: nat, op: Op, ptr: int, j: nat)
    requires Core(s) && Core(t) && Inserting(s, op, ptr) && Has(s, p, j) && Fits(s, op, j)
    requires t.at == s.at && t.ch == s.ch && t.recs == s.recs && Data(t.dat, t.recs[j]) == op.data
    ensures PcOk(t, p, ReIdx(op, ptr, j))
  {
    hide KeysOk, DataOk, C.Placed, Data, Hash;
  }

  /** Only the data of the record in hand differs. */
  lemma HandAgree(s: State, p: nat, t: State, j: nat)
    requires Core(s) && Core(t) && Agree(s) && p < |s.procs| && Has(s, p, j)
    requires |t.procs| == |s.procs| && t == s.(dat := t.dat, procs := s.procs[p := t.procs[p]])
    requires Flux(s.procs[p]) == Flux(t.procs[p])
    requires forall x :: 0 <= x < |s.recs| && x != j ==> Data(t.dat, t.recs[x]) == Data(s.dat, s.recs[x])
    ensures Agree(t)
  {
    hide Abs, C.Placed, DataOk, Data;
    forall k
      ensures AgreeOn(t, k)
    {
      assert AgreeOn(s, k);
      assert k in s.at ==> s.at[k] != j;
      AgreeElsewhere(s, p, t, k);
    }
  }

  /** A replacement by data of the same length takes effect in one write. */
  lemma OverDatStep(s: State, p: nat, op: Op, j: nat)
    requires Inv(s) && p < |s.procs| && s.procs[p] == OverDat(op, j)
    ensures op.DoStore? && j < |s.recs| && RegionIn(s.dat, s.recs[j])
    ensures Inv(Finish(WriteDat(s, s.recs[j].datoff, op.data), p, op, Code(0)))
  {
    hide Inv, Hash, Data, Abs, Linear, Core, Frame, PendFrame, LinkStep, HeldStep, PendStep, CanEnter, PcsOk, Agree;
    hide PcOk, Excl, HeldOk, PendingsApart, KeysOk, DataOk, C.Placed, Splice;
    OverDatKnows(s, p, op, j);
    InvParts(s);
    Answers(s, p);
    NoFlux(s, p);
    LiveOwner(s, op.key);
    var pc := Ret(op, Code(0), |s.log|);
    var t := Finish(WriteDat(s, s.recs[j].datoff, op.data), p, op, Code(0));
    OverwriteFrame(s, p, j, op.data, t);
    DataOnly(s, p, t);
    PendOverwrite(s, p, t, j, op.data);
    EnterWithin(s, p, pc);
    LinearMore(s.log, Entry(p, op, Code(0)));
    OverAgree(s, p, t, op, j);
    RetOk(t, p, op, Code(0), |s.log|);
    Preserve(s, p, t);
  }

  lemma OverDatKnows(s: State, p: nat, op: Op, j: nat)
    requires Inv(s) && p < |s.procs| && s.procs[p] == OverDat(op, j)
    ensures Core(s) && Excl(s) && Replaces(op) && op.key in s.at && s.at[op.key] == j && j < |s.recs|
    ensures s.recs[j].datlen == |op.data| + 1
  {
    hide Inv, Hash, Data, DataOk, C.Placed;
    InvPc(s, p);
  }

  lemma RetOk(s: State, p: nat, op: Op, reply: Reply, n: nat)
    requires Core(s) && Logged(s, p, op, reply, n)
    ensures PcOk(s, p, Ret(op, reply, n))
  {
    hide Core;
  }

  lemma LiveOwner(s: State, k: Key)
    requires Core(s) && k in s.at
    ensures s.at[k] < |s.recs| == |s.ch.own| && s.ch.own[s.at[k]] == ChainOf(k)
  {
    hide Hash;
  }

  lemma OverAgree(s: State, p: nat, t: State, op: Op, j: nat)
    requires Core(s) && Core(t) && Agree(s) && p < |s.procs| && s.procs[p] == OverDat(op, j) && op.DoStore?
    requires op.key in s.at && s.at[op.key] == j && !InFlux(s, op.key)
    requires |t.procs| == |s.procs| && t == s.(dat := t.dat, log := t.log, procs := s.procs[p := t.procs[p]])
    requires t.procs[p].Ret? && Abs(t.log) == Abs(s.log)[op.key := op.data] && Data(t.dat, t.recs[j]) == op.data
    requires forall x :: 0 <= x < |s.recs| && x != j ==> Data(t.dat, t.recs[x]) == Data(s.dat, s.recs[x])
    ensures Agree(t)
  {
    hide Abs, C.Placed, DataOk, Data;
    forall k
      ensures AgreeOn(t, k)
    {
      assert AgreeOn(s, k);
      if k == op.key {
        forall q | 0 <= q < |t.procs|
          ensures Flux(t.procs[q]) != Some(k)
        {
          assert Flux(s.procs[q]) != Some(k);
        }
      } else {
        assert k in s.at ==> s.at[k] != j;
        AgreeElsewhere(s, p, t, k);
      }
    }
  }

  // ---- Steps that leave lists or bindings alone -----------------------------

  lemma LinksSame(s: State, p: nat, t: State)
    requires Inv(s) && p < |s.procs| && Core(s) && Core(t) && |t.procs| == |s.procs|
    requires t.ch == s.ch.(own := t.ch.own) && Breaks(t.procs[p]) == Breaks(s.procs[p])
    ensures LinkStep(s, p, t)
  {
    hide Inv, KeysOk, DataOk, Hash;
    forall i | 0 <= i < NLISTS && Touches(s.procs[p], i) && Breaks(t.procs[p]) != Some(i)
      ensures C.LinkedList(t.ch, i)
    {
      TouchedLinked(s, p, i);
      C.SameListLinked(s.ch, t.ch, i);
    }
  }

  lemma AgreeSame(s: State, p: nat, t: State)
    requires Core(s) && Core(t) && Agree(s) && p < |s.procs| == |t.procs| && t.procs == s.procs[p := t.procs[p]]
    requires Flux(t.procs[p]) == Flux(s.procs[p]) && t.log == s.log && t.at == s.at && |t.recs| >= |s.recs|
    requires forall k :: k in s.at ==> Data(t.dat, t.recs[s.at[k]]) == Data(s.dat, s.recs[s.at[k]])
    ensures Agree(t)
  {
    hide Abs, Data, C.Placed, DataOk, KeysOk;
    forall k
      ensures AgreeOn(t, k)
    {
      assert AgreeOn(s, k);
      AgreeElsewhere(s, p, t, k);
    }
  }

  lemma HeldSame(s: State, p: nat, t: State)
    requires HeldOk(s) && p < |s.procs| && p < |t.procs| && t.ch.own == s.ch.own && Held(t.procs[p]) == Held(s.procs[p])
    ensures HeldStep(s, p, t)
  {
  }

  lemma InvRest(s: State)
    requires Inv(s)
    ensures HeldOk(s) && PendingsApart(s) && Excl(s)
  {
  }
}
