/** Appending data and index records, and dying on the way, keep the invariant. */
module DbAppends {
  import opened Values
  import opened Ascii
  import opened IndexCodec
  import opened IndexFile
  import opened Layout
  import opened DbStore
  import opened DbShared
  import opened DbInterleave
  import opened DbFrame
  import opened DbRuns
  import opened DbReads
  import opened DbWrites
  import D = DbSteps
  import C = Chains

  // ---- Data -----------------------------------------------------------------

  lemma SpliceEnd(f: seq<byte>, b: seq<byte>)
    ensures Splice(f, |f|, b) == f + b
  {
  }

  lemma GrowCore(s: State, p: nat, t: State, more: seq<byte>)
    requires Core(s) && p < |s.procs| == |t.procs|
    requires t == s.(dat := s.dat + more, procs := s.procs[p := t.procs[p]])
    ensures Core(t) && Frame(s, p, t)
    ensures forall j :: 0 <= j < |s.recs| ==> Data(t.dat, t.recs[j]) == Data(s.dat, s.recs[j])
  {
    D.AppendBindings(s.recs, s.at, s.dat, more);
    assert Core(t);
    hide C.Placed, KeysOk, Hash;
    forall j | 0 <= j < |s.recs|
      ensures Data(t.dat, t.recs[j]) == Data(s.dat, s.recs[j])
    {
    }
  }

  lemma GrowPend(s: State, p: nat, t: State, more: seq<byte>)
    requires Core(s) && Core(t) && PcsOk(s) && p < |s.procs| == |t.procs|
    requires t == s.(dat := s.dat + more, procs := s.procs[p := t.procs[p]])
    ensures PendFrame(s, p, t)
  {
    hide Core, PcOk;
    forall q | 0 <= q < |s.procs| && q != p && Pending(s.procs[q]).Some? && s.procs[q].op.DoStore?
      ensures PendingOk(t, Pending(s.procs[q]).value, s.procs[q].op.data)
    {
      var off, d := Pending(s.procs[q]).value, s.procs[q].op.data;
      assert PcOk(s, q, s.procs[q]);
      PendingOf(s, q);
      assert t.dat[off..off + |d| + 1] == s.dat[off..off + |d| + 1];
    }
  }

  /** What is appended now lies behind everything that was appended before. */
  lemma NewPending(s: State, p: nat, pc: Pc)
    requires Core(s) && PcsOk(s) && p < |s.procs| && Pending(pc) == Some(|s.dat|)
    ensures PendStep(s, p, pc)
  {
    hide Core, PcOk;
    forall q | 0 <= q < |s.procs| && q != p
      ensures PendApart(pc, s.procs[q]) && PendApart(s.procs[q], pc)
    {
      if Pending(s.procs[q]).Some? {
        assert PcOk(s, q, s.procs[q]);
        PendingOf(s, q);
      }
    }
  }

  lemma NewRegion(s: State, t: State, data: seq<byte>)
    requires Core(s) && t.recs == s.recs && t.dat == s.dat + (data + [NEWLINE])
    ensures PendingOk(t, |s.dat|, data)
  {
    hide KeysOk, C.Placed;
    forall j | 0 <= j < |t.recs|
      ensures Apart(t.recs[j], Region(|s.dat|, data))
    {
    }
  }

  lemma DatAppStep(s: State, p: nat, op: Op, ptr: int, repl: bool)
    requires Inv(s) && p < |s.procs| && s.procs[p] == DatApp(op, ptr, repl)
    ensures op.DoStore?
    ensures Inv(Go(WriteDat(s, |s.dat|, op.data), p, DatUnlock(op, ptr, repl, |s.dat|)))
  {
    hide Inv, Hash, Abs, Linear, Core, Frame, PendFrame, LinkStep, HeldStep, PendStep, CanEnter, PcsOk, Agree, Splice;
    hide PendingOk;
    InvPc(s, p);
    InvParts(s);
    PlacedCore(s);
    var pc := DatUnlock(op, ptr, repl, |s.dat|);
    SpliceEnd(s.dat, op.data + [NEWLINE]);
    var t := Go(WriteDat(s, |s.dat|, op.data), p, pc);
    GrowCore(s, p, t, op.data + [NEWLINE]);
    GrowPend(s, p, t, op.data + [NEWLINE]);
    NewPending(s, p, pc);
    NewRegion(s, t, op.data);
    EnterWithin(s, p, pc);
    GrowRest(s, p, t);
    Preserve(s, p, t);
  }

  /** Links, hands and bindings do not change. */
  lemma GrowRest(s: State, p: nat, t: State)
    requires Inv(s) && Core(s) && Core(t) && p < |s.procs| == |t.procs|
    requires t == s.(dat := t.dat, procs := s.procs[p := t.procs[p]])
    requires Held(t.procs[p]) == Held(s.procs[p]) && Flux(t.procs[p]) == Flux(s.procs[p])
    requires Breaks(t.procs[p]) == Breaks(s.procs[p])
    requires forall j :: 0 <= j < |s.recs| ==> Data(t.dat, t.recs[j]) == Data(s.dat, s.recs[j])
    ensures LinkStep(s, p, t) && HeldStep(s, p, t) && Agree(t) && t.log == s.log
  {
    hide Inv, Core, Hash, Abs, Data, Agree, HeldOk, LinkStep, HeldStep;
    InvParts(s);
    InvRest(s);
    PlacedCore(s);
    PlacedCore(t);
    LinksSame(s, p, t);
    HeldSame(s, p, t);
    AgreeSame(s, p, t);
  }

  // ---- Index records --------------------------------------------------------

  lemma AddCore(s: State, p: nat, r: Rec)
    requires Core(s) && 0 <= r.datoff && 0 < r.datlen && r.datoff + r.datlen <= |s.dat|
    requires s.dat[r.datoff + r.datlen - 1] == NEWLINE && forall j :: 0 <= j < |s.recs| ==> Apart(s.recs[j], r)
    ensures Core(AppendIdx(s, p, r))
  {
    var t := AppendIdx(s, p, r);
    C.ExtendPlaced(s.ch, r.ptr, |s.recs| + 1, Tag(p));
    D.AddRecKeys(s.ch.own, s.recs, s.at, r, Tag(p));
    assert DataOk(t.recs, t.dat) by {
      hide KeysOk, C.Placed;
      forall j, k | 0 <= j < k < |t.recs|
        ensures Apart(t.recs[j], t.recs[k])
      {
        if k < |s.recs| {
          assert Apart(s.recs[j], s.recs[k]);
        } else {
          assert Apart(s.recs[j], r);
        }
      }
    }
    hide KeysOk, DataOk, C.Placed;
  }

  lemma AddFrame(s: State, p: nat, r: Rec, pc: Pc)
    requires Core(s) && p < |s.procs| && Core(AppendIdx(s, p, r))
    ensures Frame(s, p, Go(AppendIdx(s, p, r), p, pc))
  {
    hide KeysOk, C.Placed, Hash;
  }

  lemma AddLinks(s: State, p: nat, r: Rec, pc: Pc)
    requires Inv(s) && p < |s.procs| && Core(s) && Core(AppendIdx(s, p, r)) && Breaks(pc) == Breaks(s.procs[p])
    ensures LinkStep(s, p, Go(AppendIdx(s, p, r), p, pc))
  {
    hide Inv, KeysOk, DataOk, Hash;
    var t := Go(AppendIdx(s, p, r), p, pc);
    forall i | 0 <= i < NLISTS && Touches(s.procs[p], i) && Breaks(pc) != Some(i)
      ensures C.LinkedList(t.ch, i)
    {
      TouchedLinked(s, p, i);
      C.ExtendLinked(s.ch, r.ptr, |s.recs| + 1, Tag(p), i);
    }
  }

  lemma AddPend(s: State, p: nat, op: Op, off: nat, r: Rec, pc: Pc)
    requires Core(s) && PcsOk(s) && PendingsApart(s) && p < |s.procs| && Core(AppendIdx(s, p, r))
    requires Pending(s.procs[p]) == Some(off) && s.procs[p].op == op && op.DoStore?
    requires r.datoff == off && r.datlen == |op.data| + 1
    ensures PendFrame(s, p, Go(AppendIdx(s, p, r), p, pc))
  {
    hide Core, PcOk;
    var t := Go(AppendIdx(s, p, r), p, pc);
    forall q | 0 <= q < |s.procs| && q != p && Pending(s.procs[q]).Some? && s.procs[q].op.DoStore?
      ensures PendingOk(t, Pending(s.procs[q]).value, s.procs[q].op.data)
    {
      var o, d := Pending(s.procs[q]).value, s.procs[q].op.data;
      assert PcOk(s, q, s.procs[q]);
      PendingOf(s, q);
      assert PendApart(s.procs[p], s.procs[q]);
      forall j | 0 <= j < |t.recs|
        ensures Apart(t.recs[j], Region(o, d))
      {
        if j < |s.recs| {
          assert Apart(s.recs[j], Region(o, d));
        }
      }
    }
  }

  lemma AddHeld(s: State, p: nat, r: Rec, pc: Pc)
    requires HeldOk(s) && p < |s.procs| && Held(s.procs[p]).None? && Held(pc) == Some(|s.ch.own|)
    ensures HeldStep(s, p, Go(AppendIdx(s, p, r), p, pc))
  {
  }

  lemma AddAgree(s: State, p: nat, r: Rec, pc: Pc)
    requires Core(s) && Agree(s) && p < |s.procs| && Core(AppendIdx(s, p, r)) && Flux(pc) == Flux(s.procs[p])
    ensures Agree(Go(AppendIdx(s, p, r), p, pc))
  {
    hide C.Placed, Abs, DataOk, Data;
    var t := Go(AppendIdx(s, p, r), p, pc);
    forall k
      ensures AgreeOn(t, k)
    {
      assert AgreeOn(s, k);
      AgreeElsewhere(s, p, t, k);
    }
  }

  lemma AtIdxApp(s: State, p: nat, op: Op, ptr: int, repl: bool, off: nat)
    requires Inv(s) && p < |s.procs| && s.procs[p] == IdxApp(op, ptr, repl, off)
    ensures Core(s) && op.DoStore? && Appending(s, op, ptr, repl)
    ensures var r := Rec(ptr, op.key, off, |op.data| + 1);
      && RegionIn(s.dat, r) && s.dat[r.datoff + r.datlen - 1] == NEWLINE && Data(s.dat, r) == op.data
      && forall j :: 0 <= j < |s.recs| ==> Apart(s.recs[j], r)
  {
    hide Inv, Core, Hash;
    InvPc(s, p);
    var r := Rec(ptr, op.key, off, |op.data| + 1);
    var w := s.dat[off..off + |op.data| + 1];
    assert s.dat[off + |op.data|] == w[|op.data|];
    assert w[..|op.data|] == s.dat[off..off + |op.data|];
    forall j | 0 <= j < |s.recs|
      ensures Apart(s.recs[j], r)
    {
      assert Apart(s.recs[j], Region(off, op.data));
    }
  }

  lemma Appended(s: State, p: nat, op: Op, repl: bool, r: Rec)
    requires Core(s) && op.DoStore? && Appending(s, op, r.ptr, repl) && Core(AppendIdx(s, p, r)) && r.key == op.key
    requires RegionIn(s.dat, r) && Data(s.dat, r) == op.data
    ensures PcOk(AppendIdx(s, p, r), p, IdxUnlock(op, repl, |s.recs|))
  {
    hide Core, Hash;
    PlacedCore(s);
    PlacedCore(AppendIdx(s, p, r));
  }

  lemma IdxAppStep(s: State, p: nat, op: Op, ptr: int, repl: bool, off: nat)
    requires Inv(s) && p < |s.procs| && s.procs[p] == IdxApp(op, ptr, repl, off)
    ensures op.DoStore?
    ensures Inv(Go(AppendIdx(s, p, Rec(ptr, op.key, off, |op.data| + 1)), p, IdxUnlock(op, repl, |s.recs|)))
  {
    hide Inv, Hash, Abs, Linear, Core, Frame, PendFrame, LinkStep, HeldStep, PendStep, CanEnter, PcsOk, PcOk, Agree;
    hide HeldOk, PendingsApart, Data, Appending, Apart, AppendIdx;
    AtIdxApp(s, p, op, ptr, repl, off);
    InvParts(s);
    InvRest(s);
    PlacedCore(s);
    var pc, r := IdxUnlock(op, repl, |s.recs|), Rec(ptr, op.key, off, |op.data| + 1);
    AppendsOnly(s, p, r);
    var u := AppendIdx(s, p, r);
    var t := Go(u, p, pc);
    AddCore(s, p, r);
    SameCore(u, t);
    Appended(s, p, op, repl, r);
    PcOkAnywhere(u, t, p, pc);
    AddFrame(s, p, r, pc);
    AddLinks(s, p, r, pc);
    AddPend(s, p, op, off, r, pc);
    AddHeld(s, p, r, pc);
    AddAgree(s, p, r, pc);
    EnterWithin(s, p, pc);
    NoPending(s, p, pc);
    Preserve(s, p, t);
  }

  lemma AppendsOnly(s: State, p: nat, r: Rec)
    ensures AppendIdx(s, p, r).procs == s.procs && AppendIdx(s, p, r).log == s.log
  {
  }

  lemma SameCore(s: State, t: State)
    requires Core(s) && t == s.(procs := t.procs)
    ensures Core(t)
  {
    hide KeysOk, DataOk, C.Placed;
  }

  lemma NoPending(s: State, p: nat, pc: Pc)
    requires Pending(pc).None?
    ensures PendStep(s, p, pc)
  {
  }

  // ---- Dying ----------------------------------------------------------------

  lemma DieCore(s: State, p: nat, j: nat)
    requires Core(s) && Has(s, p, j)
    ensures Core(s.(ch := s.ch.(own := s.ch.own[j := LOST])))
  {
    D.OrphanKeys(s.ch.own, s.recs, s.at, s.recs, j, LOST);
    hide KeysOk, DataOk;
    assert C.Placed(s.ch.(own := s.ch.own[j := LOST]));
  }

  predicate MayDie(pc: Pc) { pc.IdxWant? || pc.LinkHead? }

  lemma DieIs(s: State, p: nat)
    requires Inv(s) && p < |s.procs| && MayDie(s.procs[p])
    ensures var t, pc := Die(s, p), s.procs[p];
      && t == s.(procs := s.procs[p := Dead], log := t.log, ch := s.ch.(own := t.ch.own))
      && t.ch.own == (if pc.LinkHead? then s.ch.own[pc.j := LOST] else s.ch.own)
      && t.log == (if pc.repl then s.log + [Entry(p, DoDelete(pc.op.key), Code(0))] else s.log)
      && Flux(pc) == (if pc.repl then Some(pc.op.key) else None)
      && Held(pc) == (if pc.LinkHead? then Some(pc.j) else None)
      && Core(s) && (pc.LinkHead? ==> Has(s, p, pc.j))
  {
    hide Inv, Core, Hash;
    InvPc(s, p);
    PlacedCore(s);
  }

  /** The record in hand is lost. */
  lemma DieKeepsCore(s: State, p: nat)
    requires Inv(s) && p < |s.procs| && MayDie(s.procs[p])
    ensures Core(Die(s, p))
  {
    hide Inv, Die, Hash, KeysOk, C.Placed, DataOk;
    DieIs(s, p);
    if s.procs[p].LinkHead? {
      DieCore(s, p, s.procs[p].j);
    }
  }

  lemma DieOwn(s: State, p: nat)
    requires Inv(s) && p < |s.procs| && MayDie(s.procs[p])
    ensures Core(Die(s, p)) && |Die(s, p).procs| == |s.procs| && Frame(s, p, Die(s, p))
    ensures HeldStep(s, p, Die(s, p))
  {
    hide Inv, Die, Core, HeldOk, Excl, PendingsApart;
    DieIs(s, p);
    DieKeepsCore(s, p);
    InvRest(s);
    PlacedCore(s);
    hide Has, Flux;
    DieHeld(s, p, Die(s, p));
    DieFrame(s, p, Die(s, p));
  }

  lemma DieFrame(s: State, p: nat, t: State)
    requires Core(s) && Core(t) && p < |s.procs|
    requires t == s.(procs := s.procs[p := Dead], log := t.log, ch := s.ch.(own := t.ch.own)) && s.log <= t.log
    requires s.procs[p].LinkHead? ==> s.procs[p].j < |s.ch.own| && s.ch.own[s.procs[p].j] == Tag(p)
    requires t.ch.own == (if s.procs[p].LinkHead? then s.ch.own[s.procs[p].j := LOST] else s.ch.own)
    ensures Frame(s, p, t)
  {
    hide Core, Hash;
    PlacedCore(s);
  }

  lemma DieHeld(s: State, p: nat, t: State)
    requires p < |s.procs| && |t.ch.own| == |s.ch.own| && t.procs == s.procs[p := Dead]
    requires s.procs[p].LinkHead? ==> s.procs[p].j < |s.ch.own|
    requires t.ch.own == (if s.procs[p].LinkHead? then s.ch.own[s.procs[p].j := LOST] else s.ch.own)
    requires forall j :: 0 <= j < |s.ch.own| && s.ch.own[j] == Tag(p) ==> s.procs[p].LinkHead? && s.procs[p].j == j
    ensures HeldStep(s, p, t)
  {
  }

  lemma DieLog(s: State, p: nat)
    requires Inv(s) && p < |s.procs| && MayDie(s.procs[p])
    ensures var t, pc := Die(s, p), s.procs[p];
      && Linear(t.log) && s.log <= t.log
      && Abs(t.log) == if pc.repl then Abs(s.log) - {pc.op.key} else Abs(s.log)
  {
    hide Inv, Core, PcsOk, Abs, Linear, Hash, Die;
    DieIs(s, p);
    InvParts(s);
    PlacedCore(s);
    var pc := s.procs[p];
    if pc.repl {
      assert InFlux(s, pc.op.key);
      assert AgreeOn(s, pc.op.key);
      LinearMore(s.log, Entry(p, DoDelete(pc.op.key), Code(0)));
    }
  }

  /** Two processes never replace the same key. */
  lemma FluxAlone(s: State, p: nat, q: nat)
    requires Inv(s) && p < |s.procs| && q < |s.procs| && p != q && Flux(s.procs[p]).Some?
    ensures Flux(s.procs[q]) != Flux(s.procs[p])
  {
    InvPc(s, p);
    InvPc(s, q);
    hide Inv, Core, PcOk, Hash;
    FluxWrites(s, p);
    assert Compatible(s.procs[p], s.procs[q]);
    if Flux(s.procs[q]).Some? {
      FluxWrites(s, q);
    }
  }

  lemma DieAgree(s: State, p: nat, k: Key)
    requires Inv(s) && p < |s.procs| && MayDie(s.procs[p]) && Core(s) && Core(Die(s, p)) && AgreeOn(s, k)
    ensures AgreeOn(Die(s, p), k)
  {
    hide Inv, Abs, Linear, Hash, C.Placed, DataOk, PcsOk, Data, Die;
    var t, pc := Die(s, p), s.procs[p];
    DieIs(s, p);
    DieLog(s, p);
    if pc.repl && pc.op.key == k {
      assert InFlux(s, k);
      forall q | 0 <= q < |t.procs|
        ensures Flux(t.procs[q]) != Some(k)
      {
        if q != p {
          FluxAlone(s, p, q);
        }
      }
    } else {
      AgreeElsewhere(s, p, t, k);
    }
  }

  lemma DieAgrees(s: State, p: nat)
    requires Inv(s) && p < |s.procs| && MayDie(s.procs[p]) && Core(s) && Core(Die(s, p))
    ensures forall k :: AgreeOn(Die(s, p), k)
  {
    hide Inv, Core, AgreeOn, Die;
    InvParts(s);
    PlacedCore(s);
    PlacedCore(Die(s, p));
    forall k
      ensures AgreeOn(Die(s, p), k)
    {
      assert AgreeOn(s, k);
      DieAgree(s, p, k);
    }
  }

  lemma DeadOk(s: State, p: nat)
    requires Core(s)
    ensures PcOk(s, p, Dead)
  {
  }

  lemma DieStep(s: State, p: nat)
    requires Inv(s) && p < |s.procs| && MayDie(s.procs[p])
    ensures Inv(Die(s, p))
  {
    hide Inv, Hash, Abs, Linear, Core, Frame, PendFrame, LinkStep, HeldStep, PendStep, CanEnter, PcsOk, AgreeOn, Die;
    hide Excl, HeldOk, PendingsApart, C.Placed, KeysOk, DataOk, PcOk, Flux, Held;
    InvParts(s);
    InvRest(s);
    DieIs(s, p);
    DieOwn(s, p);
    DieLog(s, p);
    var t := Die(s, p);
    DeadOk(t, p);
    PlacedCore(s);
    PlacedCore(t);
    DieAgrees(s, p);
    LinksSame(s, p, t);
    PendSame(s, p, t);
    EnterWithin(s, p, Dead);
    NoPending(s, p, Dead);
    Preserve(s, p, t);
  }
}
