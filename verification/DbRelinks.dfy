/** The steps that move records between lists keep the invariant. */
module DbRelinks {
  import opened Values
  import opened Ascii
  import opened IndexCodec
  import opened IndexFile
  import opened Layout
  import opened DbStore
  import opened DbShared
  import opened DbInterleave
  import opened DbFrame
  import opened DbRuns
  import opened DbReads
  import opened DbWrites
  import opened DbAppends
  import D = DbSteps
  import C = Chains

  // ---- Writing the index record in hand -------------------------------------

  lemma LeavingHand(s: State, p: nat, op: Op, j: nat, a: nat, prev: int, save: int, x: nat, key: Key, ptr: int)
    requires Core(s) && Leaving(s, op, j, a, prev, save) && x < |s.recs| && s.ch.own[x] < 0
    requires Core(WriteIdx(s, x, key, ptr))
    ensures Leaving(WriteIdx(s, x, key, ptr), op, j, a, prev, save)
  {
    hide KeysOk, DataOk, Hash;
    HandLinks(s, p, x, key, ptr, ChainOf(op.key));
    C.SameListLinkedBut(s.ch, WriteIdx(s, x, key, ptr).ch, ChainOf(op.key), a, j + 1);
  }

  lemma DelIdxStep(s: State, p: nat, op: Op, j: nat, a: nat, prev: int, save: int, n: nat, fp: int)
    requires Inv(s) && p < |s.procs| && s.procs[p] == DelIdx(op, j, a, prev, save, n, fp)
    ensures j < |s.recs| && Core(s)
    ensures Inv(Go(WriteIdx(s, j, Blanks(|s.recs[j].key|), fp), p, DelHead(op, j, a, prev, save, n)))
  {
    hide Inv, Core, Hash, Leaving;
    InvPc(s, p);
    PlacedCore(s);
    var key := Blanks(|s.recs[j].key|);
    HandCore(s, j, key, fp);
    LeavingHand(s, p, op, j, a, prev, save, j, key, fp);
    RewriteHand(s, p, j, key, fp, DelHead(op, j, a, prev, save, n));
  }

  lemma ReIdxStep(s: State, p: nat, op: Op, ptr: int, j: nat)
    requires Inv(s) && p < |s.procs| && s.procs[p] == ReIdx(op, ptr, j)
    ensures j < |s.recs| && Core(s)
    ensures Inv(Go(WriteIdx(s, j, op.key, ptr), p, LinkHead(op, false, j)))
  {
    hide Inv, Core, Hash;
    InvPc(s, p);
    PlacedCore(s);
    HandCore(s, j, op.key, ptr);
    RewriteHand(s, p, j, op.key, ptr, LinkHead(op, false, j));
  }

  // ---- A record joins the free list -----------------------------------------

  lemma PushFreeIs(s: State, p: nat, j: nat)
    requires Core(s) && Has(s, p, j) && s.recs[j].ptr == s.ch.heads[FREE]
    ensures PushFree(s, j).ch == C.Push(s.ch, FREE, j)
  {
    hide KeysOk, DataOk, C.Placed;
    assert s.ch.ptrs[j := s.ch.heads[FREE]] == s.ch.ptrs;
  }

  lemma PushFreeKeys(own: seq<int>, recs: seq<Rec>, at: map<Key, nat>, j: nat)
    requires KeysOk(own, recs, at) && j < |recs| && own[j] < 0 && Blank(recs[j].key)
    ensures KeysOk(own[j := FREE], recs, at)
  {
  }

  lemma PushFreeCore(s: State, p: nat, j: nat)
    requires Core(s) && Has(s, p, j) && s.recs[j].ptr == s.ch.heads[FREE] && Blank(s.recs[j].key)
    ensures Core(PushFree(s, j))
  {
    PushFreeIs(s, p, j);
    C.PushPlaced(s.ch, FREE, j);
    PushFreeKeys(s.ch.own, s.recs, s.at, j);
    hide KeysOk, DataOk, C.Placed, C.Push;
  }

  lemma PushFreeFrame(s: State, p: nat, j: nat, pc: Pc)
    requires Core(s) && p < |s.procs| && Has(s, p, j) && HoldsFree(s.procs[p]) && Core(PushFree(s, j))
    ensures Frame(s, p, Go(PushFree(s, j), p, pc))
  {
    hide KeysOk, C.Placed, Hash, Data;
    var t := Go(PushFree(s, j), p, pc);
    forall x | 0 <= x < |s.recs| && !Mine(s, p, x)
      ensures SameRec(s, t, x)
    {
    }
  }

  lemma PushFreeHeld(s: State, p: nat, j: nat, pc: Pc)
    requires HeldOk(s) && C.Shape(s.ch) && |s.ch.lists| == NLISTS && p < |s.procs| && j < |s.ch.own|
    requires Held(s.procs[p]) == Some(j)
    ensures HeldStep(s, p, Go(PushFree(s, j), p, pc))
  {
  }

  lemma PushFreeLinks(s: State, p: nat, op: Op, j: nat, pc: Pc)
    requires Inv(s) && Core(s) && p < |s.procs| && s.procs[p].DelHead? && s.procs[p].op == op
    requires Has(s, p, j) && s.recs[j].ptr == s.ch.heads[FREE] && Core(PushFree(s, j))
    requires Breaks(pc) == Some(ChainOf(op.key))
    ensures LinkStep(s, p, Go(PushFree(s, j), p, pc))
    ensures C.SameList(s.ch, PushFree(s, j).ch, ChainOf(op.key))
  {
    hide Inv, KeysOk, DataOk, Hash, C.Push;
    PushFreeIs(s, p, j);
    FreeLinked(s);
    C.PushPlaced(s.ch, FREE, j);
    C.PushLinked(s.ch, FREE, j, FREE);
  }

  lemma PushFreeRest(s: State, p: nat, j: nat, pc: Pc)
    requires Inv(s) && Core(s) && p < |s.procs| && Has(s, p, j) && Held(s.procs[p]) == Some(j)
    requires Core(PushFree(s, j)) && Flux(pc) == Flux(s.procs[p])
    ensures var t := Go(PushFree(s, j), p, pc);
      Core(t) && HeldStep(s, p, t) && PendFrame(s, p, t) && Agree(t) && t.log == s.log
  {
    hide Inv, Core, Hash, Abs, Linear, PendFrame, HeldStep, PcsOk, Agree, HeldOk, PendingsApart, Excl, Data, C.Placed;
    hide KeysOk, DataOk;
    InvParts(s);
    InvRest(s);
    PlacedCore(s);
    var u := PushFree(s, j);
    var t := Go(u, p, pc);
    SameCore(u, t);
    PushFreeHeld(s, p, j, pc);
    PendSame(s, p, t);
    SameData(s, t);
    AgreeSame(s, p, t);
  }

  lemma AtDelHead(s: State, p: nat, op: Op, j: nat, a: nat, prev: int, save: int, n: nat)
    requires Inv(s) && p < |s.procs| && s.procs[p] == DelHead(op, j, a, prev, save, n)
    ensures Core(s) && Excl(s) && Removes(op) && DeleteLogged(s, p, op, n) && Leaving(s, op, j, a, prev, save)
    ensures Has(s, p, j)
    ensures s.recs[j].ptr == s.ch.heads[FREE] && Blank(s.recs[j].key)
  {
    hide Inv, Core, Hash, Leaving;
    InvPc(s, p);
  }

  lemma FreedOne(s: State, p: nat, op: Op, j: nat, a: nat, prev: int, save: int, n: nat)
    requires Inv(s) && p < |s.procs| && s.procs[p] == DelHead(op, j, a, prev, save, n)
    requires Core(s) && j < |s.recs| && Core(PushFree(s, j))
    ensures PcOk(PushFree(s, j), p, DelPrev(op, j, a, prev, save, n))
    ensures LinkStep(s, p, Go(PushFree(s, j), p, DelPrev(op, j, a, prev, save, n)))
  {
    hide Inv, Core, Hash, LinkStep, KeysOk, DataOk, C.LinkedBut;
    AtDelHead(s, p, op, j, a, prev, save, n);
    PushFreeLinks(s, p, op, j, DelPrev(op, j, a, prev, save, n));
    PlacedCore(s);
    PlacedCore(PushFree(s, j));
    C.SameListLinkedBut(s.ch, PushFree(s, j).ch, ChainOf(op.key), a, j + 1);
  }

  lemma DelHeadStep(s: State, p: nat, op: Op, j: nat, a: nat, prev: int, save: int, n: nat)
    requires Inv(s) && p < |s.procs| && s.procs[p] == DelHead(op, j, a, prev, save, n)
    ensures Core(s) && j < |s.recs|
    ensures Inv(Go(PushFree(s, j), p, DelPrev(op, j, a, prev, save, n)))
  {
    hide Inv, Core, Hash, Abs, Linear, Frame, PendFrame, LinkStep, HeldStep, PendStep, CanEnter, PcOk, PcsOk, Agree;
    hide HeldOk, PendingsApart, Excl, Leaving, KeysOk, DataOk, C.Placed, Data;
    AtDelHead(s, p, op, j, a, prev, save, n);
    InvParts(s);
    PlacedCore(s);
    var pc := DelPrev(op, j, a, prev, save, n);
    var u := PushFree(s, j);
    PushFreeCore(s, p, j);
    PushFreeRest(s, p, j, pc);
    FreedOne(s, p, op, j, a, prev, save, n);
    PcOkAnywhere(u, Go(u, p, pc), p, pc);
    PushFreeFrame(s, p, j, pc);
    EnterWithin(s, p, pc);
    NoPending(s, p, pc);
    Preserve(s, p, Go(u, p, pc));
  }

  // ---- The chain is closed behind a deleted record --------------------------

  lemma CloseIs(s: State, i: nat, a: nat, v: int)
    requires Core(s) && i < NLISTS && a <= |s.ch.lists[i]|
    ensures 0 <= PrevOf(s.ch.lists[i], a) <= |s.recs|
    ensures var t := WritePtr(s, i, PrevOf(s.ch.lists[i], a), v);
      && t == s.(ch := t.ch, recs := t.recs) && t.ch == C.SetCell(s.ch, i, a, v) && |t.recs| == |s.recs|
      && (forall x :: 0 <= x < |s.recs| ==> t.recs[x] == s.recs[x].(ptr := t.ch.ptrs[x]))
      && (forall x :: 0 <= x < |s.recs| && s.ch.own[x] != i ==> t.recs[x] == s.recs[x])
  {
    hide KeysOk, DataOk;
    var l := s.ch.lists[i];
    if a > 0 {
      assert s.ch.own[l[a - 1]] == i;
    }
    forall x | 0 <= x < |s.recs|
      ensures s.recs[x].ptr == s.ch.ptrs[x]
    {
    }
  }

  lemma CloseCore(s: State, i: nat, a: nat, v: int)
    requires Core(s) && i < NLISTS && a <= |s.ch.lists[i]| && 0 <= PrevOf(s.ch.lists[i], a) <= |s.recs|
    ensures Core(WritePtr(s, i, PrevOf(s.ch.lists[i], a), v))
  {
    CloseIs(s, i, a, v);
    var t := WritePtr(s, i, PrevOf(s.ch.lists[i], a), v);
    hide WritePtr;
    C.SetCellPlaced(s.ch, i, a, v);
    assert KeysOk(t.ch.own, t.recs, t.at) by {
      SameKeys(s.ch.own, s.recs, s.at, t.recs);
    }
    D.SameRegions(s.recs, t.recs, s.dat);
    hide KeysOk, DataOk, C.Placed;
  }

  lemma SameKeys(own: seq<int>, recs: seq<Rec>, at: map<Key, nat>, rs: seq<Rec>)
    requires KeysOk(own, recs, at) && |rs| == |recs| && forall x :: 0 <= x < |recs| ==> rs[x].key == recs[x].key
    ensures KeysOk(own, rs, at)
  {
  }

  lemma CloseFrame(s: State, p: nat, i: nat, a: nat, v: int, pc: Pc)
    requires Core(s) && p < |s.procs| && i < NLISTS && a <= |s.ch.lists[i]| && 0 <= PrevOf(s.ch.lists[i], a) <= |s.recs|
    requires Touches(s.procs[p], i) && Core(WritePtr(s, i, PrevOf(s.ch.lists[i], a), v))
    ensures Frame(s, p, Go(WritePtr(s, i, PrevOf(s.ch.lists[i], a), v), p, pc))
  {
    hide Core, KeysOk, DataOk, C.Placed, Hash, Data, WritePtr, SameRec, Mine;
    PlacedCore(s);
    CloseShape(s, i, a, v);
    var t := Go(WritePtr(s, i, PrevOf(s.ch.lists[i], a), v), p, pc);
    CloseFrameCore(s, i, a, v, p, pc);
    forall x | 0 <= x < |s.recs| && !Mine(s, p, x)
      ensures SameRec(s, t, x)
    {
      CloseRec(s, p, i, a, v, pc, x);
    }
  }

  lemma CloseShape(s: State, i: nat, a: nat, v: int)
    requires Core(s) && i < NLISTS && a <= |s.ch.lists[i]| && 0 <= PrevOf(s.ch.lists[i], a) <= |s.recs|
    ensures var t := WritePtr(s, i, PrevOf(s.ch.lists[i], a), v);
      && t.at == s.at && t.procs == s.procs && t.log == s.log && |t.recs| == |s.recs| && t.ch.lists == s.ch.lists
      && |t.ch.heads| == NLISTS && forall x :: 0 <= x < NLISTS && x != i ==> t.ch.heads[x] == s.ch.heads[x]
  {
    hide KeysOk, DataOk, C.Placed;
  }

  lemma CloseFrameCore(s: State, i: nat, a: nat, v: int, p: nat, pc: Pc)
    requires Core(s) && p < |s.procs| && i < NLISTS && a <= |s.ch.lists[i]| && 0 <= PrevOf(s.ch.lists[i], a) <= |s.recs|
    requires Core(WritePtr(s, i, PrevOf(s.ch.lists[i], a), v))
    ensures Core(Go(WritePtr(s, i, PrevOf(s.ch.lists[i], a), v), p, pc))
  {
    hide KeysOk, DataOk, C.Placed, WritePtr;
  }

  lemma CloseRec(s: State, p: nat, i: nat, a: nat, v: int, pc: Pc, x: nat)
    requires Core(s) && p < |s.procs| && i < NLISTS && a <= |s.ch.lists[i]| && 0 <= PrevOf(s.ch.lists[i], a) <= |s.recs|
    requires Core(Go(WritePtr(s, i, PrevOf(s.ch.lists[i], a), v), p, pc))
    requires Touches(s.procs[p], i) && x < |s.recs| == |s.ch.own| && !Mine(s, p, x)
    ensures x < |WritePtr(s, i, PrevOf(s.ch.lists[i], a), v).recs|
    ensures SameRec(s, Go(WritePtr(s, i, PrevOf(s.ch.lists[i], a), v), p, pc), x)
  {
    CloseIs(s, i, a, v);
    hide Core, KeysOk, DataOk, C.Placed, Hash, WritePtr;
  }

  /** The other lists do not notice. */
  lemma CloseOther(s: State, i: nat, a: nat, v: int, k: nat)
    requires Core(s) && i < NLISTS && a <= |s.ch.lists[i]| && 0 <= PrevOf(s.ch.lists[i], a) <= |s.recs|
    requires Core(WritePtr(s, i, PrevOf(s.ch.lists[i], a), v)) && k < NLISTS && k != i
    ensures C.SameList(s.ch, WritePtr(s, i, PrevOf(s.ch.lists[i], a), v).ch, k)
  {
    CloseIs(s, i, a, v);
    hide KeysOk, DataOk, WritePtr;
    forall b | 0 <= b < |s.ch.lists[k]|
      ensures s.ch.own[s.ch.lists[k][b]] == k
    {
    }
    assert a > 0 ==> s.ch.own[s.ch.lists[i][a - 1]] == i;
  }

  lemma CloseLinks(s: State, p: nat, op: Op, j: nat, a: nat, prev: int, save: int, pc: Pc)
    requires Inv(s) && Core(s) && p < |s.procs| && Breaks(s.procs[p]) == Some(ChainOf(op.key)) && s.procs[p].op == op
    requires Leaving(s, op, j, a, prev, save) && 0 <= prev <= |s.recs| && Core(WritePtr(s, ChainOf(op.key), prev, save))
    ensures LinkStep(s, p, Go(WritePtr(s, ChainOf(op.key), prev, save), p, pc))
  {
    var i := ChainOf(op.key);
    CloseIs(s, i, a, save);
    hide Inv, KeysOk, DataOk, Hash, WritePtr;
    var t := Go(WritePtr(s, i, prev, save), p, pc);
    forall k | 0 <= k < NLISTS && Touches(s.procs[p], k)
      ensures C.LinkedList(t.ch, k)
    {
      if k == i {
        C.SetCellRestores(s.ch, i, a, save, j + 1);
      } else {
        TouchedLinked(s, p, k);
        CloseOther(s, i, a, save, k);
        C.SameListLinked(s.ch, t.ch, k);
      }
    }
  }

  lemma DelPrevStep(s: State, p: nat, op: Op, j: nat, a: nat, prev: int, save: int, n: nat)
    requires Inv(s) && p < |s.procs| && s.procs[p] == DelPrev(op, j, a, prev, save, n)
    ensures 0 <= prev <= |s.recs| && Core(s)
    ensures Inv(Go(WritePtr(s, ChainOf(op.key), prev, save), p, DelUnlock(op, n)))
  {
    hide Inv, Core, Hash, Abs, Linear, Frame, PendFrame, LinkStep, HeldStep, PendStep, CanEnter, PcsOk, Agree, HeldOk;
    hide PendingsApart, Excl, C.LinkedBut, C.Placed, KeysOk, DataOk, Data, WritePtr, PcOk;
    DelPrevKnows(s, p, op, j, a, prev, save, n);
    InvParts(s);
    InvRest(s);
    PlacedCore(s);
    var pc, i := DelUnlock(op, n), ChainOf(op.key);
    CloseIs(s, i, a, save);
    CloseCore(s, i, a, save);
    var u := WritePtr(s, i, prev, save);
    var t := Go(u, p, pc);
    SameCore(u, t);
    CloseFrame(s, p, i, a, save, pc);
    CloseLinks(s, p, op, j, a, prev, save, pc);
    HeldSame(s, p, t);
    PendSame(s, p, t);
    PlacedCore(t);
    SameData(s, t);
    AgreeSame(s, p, t);
    EnterWithin(s, p, pc);
    NoPending(s, p, pc);
    DelPrevOk(s, t, p, op, n);
    Preserve(s, p, t);
  }

  lemma DelPrevKnows(s: State, p: nat, op: Op, j: nat, a: nat, prev: int, save: int, n: nat)
    requires Inv(s) && p < |s.procs| && s.procs[p] == DelPrev(op, j, a, prev, save, n)
    ensures Core(s) && Excl(s) && Removes(op) && DeleteLogged(s, p, op, n) && Leaving(s, op, j, a, prev, save)
  {
    hide Inv, Core, Hash, Leaving;
    InvPc(s, p);
  }

  lemma DelPrevOk(s: State, t: State, p: nat, op: Op, n: nat)
    requires Core(s) && Core(t) && Removes(op) && DeleteLogged(s, p, op, n) && op.key !in s.at
    requires t.at == s.at && t.log == s.log
    ensures PcOk(t, p, DelUnlock(op, n))
  {
    hide Core;
  }

  lemma SameData(s: State, t: State)
    requires Core(s) && Core(t) && t.dat == s.dat && |t.recs| == |s.recs|
    requires forall x :: 0 <= x < |s.recs| ==>
      t.recs[x].datoff == s.recs[x].datoff && t.recs[x].datlen == s.recs[x].datlen
    ensures forall x :: 0 <= x < |s.recs| ==> Data(t.dat, t.recs[x]) == Data(s.dat, s.recs[x])
    ensures forall k :: k in s.at ==> s.at[k] < |s.recs|
  {
    hide C.Placed;
  }

  // ---- A record leaves the free list ----------------------------------------

  lemma TakeFreeIs(s: State, p: nat, a: nat, j: nat)
    requires Core(s) && a < |s.ch.lists[FREE]| && s.ch.lists[FREE][a] == j && j < |s.recs|
    requires 0 <= PrevOf(s.ch.lists[FREE], a) <= |s.recs|
    ensures var t := TakeFree(s, p, a, PrevOf(s.ch.lists[FREE], a), j);
      && t == s.(ch := t.ch, recs := t.recs) && t.ch == C.Unlink(s.ch, FREE, a, Tag(p)) && |t.recs| == |s.recs|
      && (forall x :: 0 <= x < |s.recs| ==> t.recs[x] == s.recs[x].(ptr := t.ch.ptrs[x]))
      && (forall x :: 0 <= x < |s.recs| && s.ch.own[x] != FREE ==> t.recs[x] == s.recs[x])
      && t.ch.own == s.ch.own[j := Tag(p)] && s.ch.own[j] == FREE
      && |t.ch.heads| == |s.ch.heads| && (forall i :: 0 < i < NLISTS ==> t.ch.heads[i] == s.ch.heads[i])
  {
    CloseIs(s, FREE, a, s.recs[j].ptr);
    hide KeysOk, DataOk, WritePtr;
    assert s.ch.own[j] == FREE;
    assert s.recs[j].ptr == s.ch.ptrs[j];
  }

  lemma TakeFreeCore(s: State, p: nat, a: nat, j: nat)
    requires Core(s) && a < |s.ch.lists[FREE]| && s.ch.lists[FREE][a] == j && j < |s.recs|
    requires 0 <= PrevOf(s.ch.lists[FREE], a) <= |s.recs|
    ensures Core(TakeFree(s, p, a, PrevOf(s.ch.lists[FREE], a), j))
  {
    hide TakeFree, KeysOk, DataOk, C.Placed;
    TakeFreeIs(s, p, a, j);
    var t := TakeFree(s, p, a, PrevOf(s.ch.lists[FREE], a), j);
    C.UnlinkPlaced(s.ch, FREE, a, Tag(p));
    D.OrphanKeys(s.ch.own, s.recs, s.at, t.recs, j, Tag(p));
    D.SameRegions(s.recs, t.recs, s.dat);
  }

  lemma TakeFreeFrame(s: State, p: nat, a: nat, j: nat, pc: Pc)
    requires Core(s) && p < |s.procs| && HoldsFree(s.procs[p])
    requires a < |s.ch.lists[FREE]| && s.ch.lists[FREE][a] == j && j < |s.recs|
    requires 0 <= PrevOf(s.ch.lists[FREE], a) <= |s.recs| && Core(TakeFree(s, p, a, PrevOf(s.ch.lists[FREE], a), j))
    ensures Frame(s, p, Go(TakeFree(s, p, a, PrevOf(s.ch.lists[FREE], a), j), p, pc))
  {
    TakeFreeIs(s, p, a, j);
    hide KeysOk, C.Placed, Hash, Data, TakeFree;
    var t := Go(TakeFree(s, p, a, PrevOf(s.ch.lists[FREE], a), j), p, pc);
    forall x | 0 <= x < |s.recs| && !Mine(s, p, x)
      ensures SameRec(s, t, x)
    {
    }
  }

  lemma TakeFreeLinks(s: State, p: nat, a: nat, j: nat, pc: Pc)
    requires Inv(s) && Core(s) && p < |s.procs| && HoldsFree(s.procs[p]) && Breaks(s.procs[p]).None?
    requires a < |s.ch.lists[FREE]| && s.ch.lists[FREE][a] == j && j < |s.recs|
    requires 0 <= PrevOf(s.ch.lists[FREE], a) <= |s.recs| && Core(TakeFree(s, p, a, PrevOf(s.ch.lists[FREE], a), j))
    ensures LinkStep(s, p, Go(TakeFree(s, p, a, PrevOf(s.ch.lists[FREE], a), j), p, pc))
    ensures C.LinkedList(s.ch, FREE)
  {
    TakeFreeIs(s, p, a, j);
    hide Inv, KeysOk, DataOk, Hash, TakeFree;
    FreeLinked(s);
    var t := Go(TakeFree(s, p, a, PrevOf(s.ch.lists[FREE], a), j), p, pc);
    forall k | 0 <= k < NLISTS && Touches(s.procs[p], k)
      ensures C.LinkedList(t.ch, k)
    {
      TouchedLinked(s, p, k);
      C.UnlinkLinked(s.ch, FREE, a, Tag(p), k);
    }
  }

  lemma TakeFreeHeld(s: State, p: nat, t: State, j: nat)
    requires HeldOk(s) && p < |s.procs| && p < |t.procs| && j < |s.ch.own| && t.ch.own == s.ch.own[j := Tag(p)]
    requires Held(s.procs[p]).None? && Held(t.procs[p]) == Some(j)
    ensures HeldStep(s, p, t)
  {
  }

  lemma AtFFTake(s: State, p: nat, op: Op, ptr: int, a: nat, prev: int, j: nat)
    requires Inv(s) && p < |s.procs| && s.procs[p] == FFTake(op, ptr, a, prev, j)
    ensures Core(s) && Inserting(s, op, ptr) && a < |s.ch.lists[FREE]| && s.ch.lists[FREE][a] == j && j < |s.recs|
    ensures prev == PrevOf(s.ch.lists[FREE], a) && 0 <= prev <= |s.recs| && Fits(s, op, j)
  {
    hide Inv, Core;
    InvPc(s, p);
    PlacedCore(s);
    CloseIs(s, FREE, a, 0);
  }

  lemma TookFree(s: State, p: nat, op: Op, ptr: int, a: nat, prev: int, j: nat)
    requires Inv(s) && p < |s.procs| && s.procs[p] == FFTake(op, ptr, a, prev, j)
    requires Core(s) && a < |s.ch.lists[FREE]| && 0 <= prev <= |s.recs| && j < |s.recs|
    requires Core(TakeFree(s, p, a, prev, j))
    ensures PcOk(TakeFree(s, p, a, prev, j), p, FFUnlock(op, ptr, Some(j)))
  {
    hide Inv, Core, Hash, TakeFree, C.Unlink, C.Placed, KeysOk, DataOk;
    AtFFTake(s, p, op, ptr, a, prev, j);
    TakeFreeIs(s, p, a, j);
    PlacedCore(s);
    PlacedCore(TakeFree(s, p, a, prev, j));
  }

  lemma TakeFreeRest(s: State, p: nat, a: nat, prev: int, j: nat, pc: Pc)
    requires Inv(s) && Core(s) && p < |s.procs| && a < |s.ch.lists[FREE]| && s.ch.lists[FREE][a] == j && j < |s.recs|
    requires prev == PrevOf(s.ch.lists[FREE], a) && 0 <= prev <= |s.recs| && Core(TakeFree(s, p, a, prev, j))
    requires Held(s.procs[p]).None? && Held(pc) == Some(j) && Flux(pc) == Flux(s.procs[p])
    ensures var t := Go(TakeFree(s, p, a, prev, j), p, pc);
      Core(t) && HeldStep(s, p, t) && PendFrame(s, p, t) && Agree(t) && t.log == s.log
  {
    hide Inv, Core, Hash, Abs, Linear, PendFrame, HeldStep, PcsOk, Agree, HeldOk, PendingsApart, Excl, C.Unlink;
    hide C.Placed, KeysOk, DataOk, Data, TakeFree;
    InvParts(s);
    InvRest(s);
    PlacedCore(s);
    TakeFreeIs(s, p, a, j);
    var u := TakeFree(s, p, a, prev, j);
    var t := Go(u, p, pc);
    SameCore(u, t);
    TakeFreeHeld(s, p, t, j);
    PendSame(s, p, t);
    SameData(s, t);
    AgreeSame(s, p, t);
  }

  lemma TakeFreeSame(s: State, p: nat, a: nat, j: nat)
    requires Core(s) && a < |s.ch.lists[FREE]| && s.ch.lists[FREE][a] == j && j < |s.recs|
    requires 0 <= PrevOf(s.ch.lists[FREE], a) <= |s.recs|
    ensures var t := TakeFree(s, p, a, PrevOf(s.ch.lists[FREE], a), j); t == s.(ch := t.ch, recs := t.recs)
  {
    hide TakeFree, Core;
    TakeFreeIs(s, p, a, j);
  }

  lemma FFTakeStep(s: State, p: nat, op: Op, ptr: int, a: nat, prev: int, j: nat)
    requires Inv(s) && p < |s.procs| && s.procs[p] == FFTake(op, ptr, a, prev, j)
    ensures Core(s) && a < |s.ch.lists[FREE]| && 0 <= prev <= |s.recs| && j < |s.recs|
    ensures Inv(Go(TakeFree(s, p, a, prev, j), p, FFUnlock(op, ptr, Some(j))))
  {
    hide Inv, Core, Hash, Abs, Linear, Frame, PendFrame, LinkStep, HeldStep, PendStep, CanEnter, PcOk, PcsOk, Agree;
    hide HeldOk, PendingsApart, Excl, C.Unlink, C.Placed, KeysOk, DataOk, Data, TakeFree, Fits, Inserting;
    AtFFTake(s, p, op, ptr, a, prev, j);
    InvParts(s);
    InvRest(s);
    PlacedCore(s);
    var pc := FFUnlock(op, ptr, Some(j));
    TakeFreeSame(s, p, a, j);
    TakeFreeCore(s, p, a, j);
    var u := TakeFree(s, p, a, prev, j);
    TakeFreeRest(s, p, a, prev, j, pc);
    TookFree(s, p, op, ptr, a, prev, j);
    PcOkAnywhere(u, Go(u, p, pc), p, pc);
    TakeFreeFrame(s, p, a, j, pc);
    TakeFreeLinks(s, p, a, j, pc);
    EnterWithin(s, p, pc);
    NoPending(s, p, pc);
    Preserve(s, p, Go(u, p, pc));
  }

  // ---- A deleted record leaves its chain ------------------------------------

  lemma BlankDataIs(s: State, p: nat, op: Op, j: nat, a: nat, prev: int, save: int)
    requires Core(s) && p < |s.procs| && Located(s, op, j, a, prev, save)
    ensures RegionIn(s.dat, s.recs[j]) && s.ch.own[j] == ChainOf(op.key)
    ensures var t := BlankData(s, p, op, j, a, prev, save);
      && t.recs == s.recs && t.ch == C.Drop(s.ch, ChainOf(op.key), a, Tag(p)) && t.at == s.at - {op.key}
      && t.dat == Splice(s.dat, s.recs[j].datoff, Blanks(s.recs[j].datlen - 1) + [NEWLINE])
      && t.procs == s.procs[p := DelFree(op, j, a, prev, save, |s.log|)]
      && t.log == if op.DoDelete? then s.log + [Entry(p, op, Code(0))] else s.log
  {
    hide KeysOk, Hash, Splice;
    assert s.ch.own[j] == ChainOf(op.key);
  }

  lemma DropKeys(own: seq<int>, recs: seq<Rec>, at: map<Key, nat>, j: nat, o: int)
    requires KeysOk(own, recs, at) && j < |recs| && own[j] > FREE && o < 0
    ensures KeysOk(own[j := o], recs, at - {recs[j].key})
  {
  }

  lemma BlankDataCore(s: State, p: nat, op: Op, j: nat, a: nat, prev: int, save: int)
    requires Core(s) && p < |s.procs| && Located(s, op, j, a, prev, save) && RegionIn(s.dat, s.recs[j])
    ensures var t := BlankData(s, p, op, j, a, prev, save);
      && Core(t)
      && forall x :: 0 <= x < |s.recs| && x != j ==> Data(t.dat, t.recs[x]) == Data(s.dat, s.recs[x])
  {
    hide BlankData, Hash, Splice, KeysOk, DataOk, C.Placed, Data;
    var t := BlankData(s, p, op, j, a, prev, save);
    BlankDataIs(s, p, op, j, a, prev, save);
    C.DropPlaced(s.ch, ChainOf(op.key), a, Tag(p));
    DropKeys(s.ch.own, s.recs, s.at, j, Tag(p));
    OverwriteCore(s, j, Blanks(s.recs[j].datlen - 1));
  }

  lemma BlankDataFrame(s: State, p: nat, op: Op, j: nat, a: nat, prev: int, save: int)
    requires Core(s) && p < |s.procs| && Located(s, op, j, a, prev, save) && RegionIn(s.dat, s.recs[j])
    requires Touches(s.procs[p], ChainOf(op.key)) && Core(BlankData(s, p, op, j, a, prev, save))
    ensures Frame(s, p, BlankData(s, p, op, j, a, prev, save))
  {
    hide BlankData, KeysOk, DataOk, C.Placed, Splice, Data, Hash, Located;
    LocatedAt(s, op, j, a, prev, save);
    BlankDataIs(s, p, op, j, a, prev, save);
    BlankDataCore(s, p, op, j, a, prev, save);
    var t := BlankData(s, p, op, j, a, prev, save);
    forall x | 0 <= x < |s.recs| && !Mine(s, p, x)
      ensures SameRec(s, t, x)
    {
    }
  }

  lemma BlankDataLinks(s: State, p: nat, op: Op, j: nat, a: nat, prev: int, save: int)
    requires Inv(s) && Core(s) && p < |s.procs| && s.procs[p] == DelDat(op, j, a, prev, save)
    requires Located(s, op, j, a, prev, save) && RegionIn(s.dat, s.recs[j])
    requires Core(BlankData(s, p, op, j, a, prev, save))
    ensures LinkStep(s, p, BlankData(s, p, op, j, a, prev, save))
    ensures Leaving(BlankData(s, p, op, j, a, prev, save), op, j, a, prev, save)
  {
    hide Inv, BlankData, KeysOk, DataOk, Splice, Data, Hash;
    BlankDataIs(s, p, op, j, a, prev, save);
    ChainLinked(s, p);
    DropLeaves(s, p, op, j, a, prev, save, BlankData(s, p, op, j, a, prev, save));
    DropFree(s, p, op, a, BlankData(s, p, op, j, a, prev, save));
  }

  lemma DropFree(s: State, p: nat, op: Op, a: nat, t: State)
    requires Inv(s) && Core(s) && Core(t) && p < |s.procs| && a < |s.ch.lists[ChainOf(op.key)]|
    requires t.ch == C.Drop(s.ch, ChainOf(op.key), a, Tag(p))
    ensures C.LinkedList(t.ch, FREE)
  {
    hide Inv, KeysOk, DataOk, Hash;
    FreeLinked(s);
    C.SameListLinked(s.ch, t.ch, FREE);
  }

  lemma DropLeaves(s: State, p: nat, op: Op, j: nat, a: nat, prev: int, save: int, t: State)
    requires Core(s) && Core(t) && Located(s, op, j, a, prev, save) && C.LinkedList(s.ch, ChainOf(op.key))
    requires t.ch == C.Drop(s.ch, ChainOf(op.key), a, Tag(p)) && op.key !in t.at
    ensures Leaving(t, op, j, a, prev, save)
  {
    hide KeysOk, DataOk, Hash, C.LinkedList, C.LinkedBut;
    var i := ChainOf(op.key);
    C.DropLinked(s.ch, i, a, Tag(p));
    C.DropNext(s.ch, i, a, Tag(p));
    assert s.recs[j].ptr == s.ch.ptrs[j];
    assert s.ch.offs[j] == j + 1;
    assert t.ch.lists[i] == C.Without(s.ch.lists[i], a);
  }

  lemma BlankDataLog(s: State, p: nat, op: Op, j: nat, a: nat, prev: int, save: int)
    requires Inv(s) && Core(s) && p < |s.procs| && s.procs[p] == DelDat(op, j, a, prev, save)
    requires Located(s, op, j, a, prev, save) && RegionIn(s.dat, s.recs[j])
    ensures var t := BlankData(s, p, op, j, a, prev, save);
      && Linear(t.log) && s.log <= t.log
      && Abs(t.log) == (if op.DoDelete? then Abs(s.log) - {op.key} else Abs(s.log))
      && op.key in Abs(s.log) && !InFlux(s, op.key) && op.key in s.at && s.at[op.key] == j
  {
    BlankDataIs(s, p, op, j, a, prev, save);
    InvParts(s);
    hide Inv, BlankData, KeysOk, DataOk, C.Placed, Hash, Abs, Linear, Agree, PcsOk;
    ChainHolds(s, op.key);
    Answers(s, p);
    NoFlux(s, p);
    if op.DoDelete? {
      LinearMore(s.log, Entry(p, op, Code(0)));
    }
  }

  lemma BlankDataAgree(s: State, p: nat, op: Op, j: nat, a: nat, prev: int, save: int, k: Key)
    requires Inv(s) && Core(s) && p < |s.procs| && s.procs[p] == DelDat(op, j, a, prev, save) && Removes(op)
    requires Located(s, op, j, a, prev, save) && RegionIn(s.dat, s.recs[j])
    requires Core(BlankData(s, p, op, j, a, prev, save)) && AgreeOn(s, k)
    ensures AgreeOn(BlankData(s, p, op, j, a, prev, save), k)
  {
    hide Inv, BlankData, DataOk, C.Placed, Hash, Abs, Linear, Data, Splice, Located;
    LocatedAt(s, op, j, a, prev, save);
    var t := BlankData(s, p, op, j, a, prev, save);
    BlankDataIs(s, p, op, j, a, prev, save);
    BlankDataCore(s, p, op, j, a, prev, save);
    BlankDataLog(s, p, op, j, a, prev, save);
    if k == op.key {
      if op.DoDelete? {
        forall q | 0 <= q < |t.procs|
          ensures Flux(t.procs[q]) != Some(k)
        {
          assert Flux(s.procs[q]) != Some(k);
        }
      } else {
        assert Flux(t.procs[p]) == Some(k);
      }
    } else {
      assert k in s.at ==> s.at[k] != j;
      AgreeElsewhere(s, p, t, k);
    }
  }

  lemma AtDelDat(s: State, p: nat, op: Op, j: nat, a: nat, prev: int, save: int)
    requires Inv(s) && p < |s.procs| && s.procs[p] == DelDat(op, j, a, prev, save)
    ensures Core(s) && Startable(op) && Located(s, op, j, a, prev, save) && Removes(op)
    ensures Touches(s.procs[p], ChainOf(op.key))
  {
    hide Inv, Core, Located, Hash;
    InvPc(s, p);
  }

  lemma DelDatRest(s: State, p: nat, op: Op, j: nat, a: nat, prev: int, save: int)
    requires Inv(s) && Core(s) && p < |s.procs| && s.procs[p] == DelDat(op, j, a, prev, save) && Removes(op)
    requires Located(s, op, j, a, prev, save) && RegionIn(s.dat, s.recs[j])
    requires Core(BlankData(s, p, op, j, a, prev, save))
    ensures var t := BlankData(s, p, op, j, a, prev, save);
      HeldStep(s, p, t) && PendFrame(s, p, t) && Agree(t)
  {
    hide Inv, Core, Hash, Abs, Linear, PendFrame, HeldStep, PcsOk, HeldOk, PendingsApart, Excl, BlankData, Located;
    hide Splice, AgreeOn, KeysOk, DataOk, C.Placed;
    PlacedCore(s);
    LocatedAt(s, op, j, a, prev, save);
    var t := BlankData(s, p, op, j, a, prev, save);
    InvParts(s);
    InvRest(s);
    PlacedCore(t);
    BlankDataIs(s, p, op, j, a, prev, save);
    PendOverwrite(s, p, t, j, Blanks(s.recs[j].datlen - 1));
    TakeFreeHeld(s, p, t, j);
    forall k
      ensures AgreeOn(t, k)
    {
      assert AgreeOn(s, k);
      BlankDataAgree(s, p, op, j, a, prev, save, k);
    }
  }

  lemma LocatedAt(s: State, op: Op, j: nat, a: nat, prev: int, save: int)
    requires Core(s) && Located(s, op, j, a, prev, save)
    ensures var l := s.ch.lists[ChainOf(op.key)]; a < |l| && l[a] == j && j < |s.recs|
    ensures s.recs[j].key == op.key
  {
  }

  lemma DelDatStep(s: State, p: nat, op: Op, j: nat, a: nat, prev: int, save: int)
    requires Inv(s) && p < |s.procs| && s.procs[p] == DelDat(op, j, a, prev, save)
    ensures Core(s) && j < |s.recs| && RegionIn(s.dat, s.recs[j]) && a < |s.ch.lists[ChainOf(op.key)]|
    ensures Inv(BlankData(s, p, op, j, a, prev, save))
  {
    hide Inv, Core, Hash, Abs, Linear, Frame, PendFrame, LinkStep, HeldStep, PendStep, CanEnter, PcsOk, Agree, HeldOk;
    hide PendingsApart, Excl, Data, BlankData, Located, Leaving, Splice, KeysOk, DataOk, C.Placed;
    AtDelDat(s, p, op, j, a, prev, save);
    LocatedAt(s, op, j, a, prev, save);
    InvRest(s);
    PlacedCore(s);
    BlankDataIs(s, p, op, j, a, prev, save);
    BlankDataCore(s, p, op, j, a, prev, save);
    var t := BlankData(s, p, op, j, a, prev, save);
    PlacedCore(t);
    BlankDataFrame(s, p, op, j, a, prev, save);
    BlankDataLinks(s, p, op, j, a, prev, save);
    BlankDataLog(s, p, op, j, a, prev, save);
    DelDatRest(s, p, op, j, a, prev, save);
    EnterWithin(s, p, t.procs[p]);
    NoPending(s, p, t.procs[p]);
    Preserve(s, p, t);
  }

  // ---- A written record joins its chain -------------------------------------

  lemma LinkIs(s: State, p: nat, op: Op, repl: bool, j: nat)
    requires Core(s) && p < |s.procs| && Ready(s, p, op, repl, j)
    ensures var t := Link(s, p, op, j);
      && t == s.(ch := t.ch, at := s.at[op.key := j], procs := s.procs[p := Ret(op, Code(0), |s.log|)],
                 log := s.log + [Entry(p, op, Code(0))])
      && t.ch == C.Push(s.ch, ChainOf(op.key), j) && t.ch.own == s.ch.own[j := ChainOf(op.key)]
  {
    hide KeysOk, DataOk, C.Placed, Hash;
    assert s.ch.ptrs[j := s.ch.heads[ChainOf(op.key)]] == s.ch.ptrs;
  }

  lemma LinkCore(s: State, p: nat, op: Op, repl: bool, j: nat)
    requires Core(s) && p < |s.procs| && Ready(s, p, op, repl, j)
    ensures Core(Link(s, p, op, j))
  {
    LinkIs(s, p, op, repl, j);
    C.PushPlaced(s.ch, ChainOf(op.key), j);
    D.AttachKeys(s.ch.own, s.recs, s.at, j);
    var t := Link(s, p, op, j);
    hide KeysOk, DataOk, C.Placed, Hash, Link;
    assert t.ch.ptrs == s.ch.ptrs;
  }

  lemma LinkFrame(s: State, p: nat, op: Op, repl: bool, j: nat)
    requires Core(s) && p < |s.procs| && Ready(s, p, op, repl, j) && Core(Link(s, p, op, j))
    requires Touches(s.procs[p], ChainOf(op.key)) && s.procs[p] == LinkHead(op, repl, j)
    ensures Frame(s, p, Link(s, p, op, j))
  {
    hide Core, KeysOk, DataOk, C.Placed, Hash, Data, Link, SameRec, Mine;
    LinkIs(s, p, op, repl, j);
    PlacedCore(s);
    var t := Link(s, p, op, j);
    forall x | 0 <= x < |s.recs| && !Mine(s, p, x)
      ensures SameRec(s, t, x)
    {
      LinkRec(s, p, op, repl, j, x);
    }
  }

  lemma LinkRec(s: State, p: nat, op: Op, repl: bool, j: nat, x: nat)
    requires Core(s) && p < |s.procs| && Ready(s, p, op, repl, j) && Core(Link(s, p, op, j))
    requires x < |s.recs| == |s.ch.own| && !Mine(s, p, x)
    ensures x < |Link(s, p, op, j).recs| && SameRec(s, Link(s, p, op, j), x)
  {
    LinkIs(s, p, op, repl, j);
    hide Core, KeysOk, DataOk, C.Placed, Hash, Data, Link;
  }

  lemma LinkLinks(s: State, p: nat, op: Op, repl: bool, j: nat)
    requires Inv(s) && Core(s) && p < |s.procs| && Ready(s, p, op, repl, j) && Core(Link(s, p, op, j))
    requires s.procs[p] == LinkHead(op, repl, j)
    ensures LinkStep(s, p, Link(s, p, op, j))
  {
    hide Inv, KeysOk, DataOk, Hash, Link, C.Placed, C.LinkedList, C.Push, Data, Appending;
    LinkIs(s, p, op, repl, j);
    ChainLinked(s, p);
    var i := ChainOf(op.key);
    C.PushPlaced(s.ch, i, j);
    C.PushLinked(s.ch, i, j, i);
  }

  lemma LinkLog(s: State, p: nat, op: Op, repl: bool, j: nat)
    requires Inv(s) && Core(s) && p < |s.procs| && s.procs[p] == LinkHead(op, repl, j) && Ready(s, p, op, repl, j)
    ensures var log := s.log + [Entry(p, op, Code(0))];
      Linear(log) && Abs(log) == Abs(s.log)[op.key := op.data]
  {
    InvParts(s);
    hide Inv, Core, Hash, Abs, Linear, PcsOk, Data;
    PlacedCore(s);
    if repl {
      assert Flux(s.procs[p]) == Some(op.key);
      assert InFlux(s, op.key);
      assert AgreeOn(s, op.key);
    } else {
      Answers(s, p);
    }
    LinearMore(s.log, Entry(p, op, Code(0)));
  }

  lemma LinkAgree(s: State, p: nat, op: Op, repl: bool, j: nat, k: Key)
    requires Inv(s) && Core(s) && p < |s.procs| && s.procs[p] == LinkHead(op, repl, j) && Ready(s, p, op, repl, j)
    requires Core(Link(s, p, op, j)) && AgreeOn(s, k)
    ensures AgreeOn(Link(s, p, op, j), k)
  {
    hide Inv, DataOk, C.Placed, Hash, Abs, Linear, Data, Link, C.Push;
    LinkIs(s, p, op, repl, j);
    LinkLog(s, p, op, repl, j);
    var t := Link(s, p, op, j);
    if k == op.key {
      forall q | 0 <= q < |t.procs|
        ensures Flux(t.procs[q]) != Some(k)
      {
        if q != p {
          if repl {
            FluxAlone(s, p, q);
          } else {
            NoFlux(s, p);
          }
        }
      }
    } else {
      AgreeElsewhere(s, p, t, k);
    }
  }

  lemma LinkHeadStep(s: State, p: nat, op: Op, repl: bool, j: nat)
    requires Inv(s) && p < |s.procs| && s.procs[p] == LinkHead(op, repl, j)
    ensures Core(s) && j < |s.recs|
    ensures Inv(Link(s, p, op, j))
  {
    hide Inv, Core, Hash, Abs, Linear, Frame, PendFrame, LinkStep, HeldStep, PendStep, CanEnter, PcsOk, AgreeOn;
    hide HeldOk, PendingsApart, Excl, Data, Link, KeysOk, DataOk, C.Placed, C.Push, PcOk;
    LinkKnows(s, p, op, repl, j);
    InvParts(s);
    InvRest(s);
    PlacedCore(s);
    LinkIs(s, p, op, repl, j);
    LinkCore(s, p, op, repl, j);
    var t := Link(s, p, op, j);
    PlacedCore(t);
    LinkFrame(s, p, op, repl, j);
    LinkLinks(s, p, op, repl, j);
    LinkLog(s, p, op, repl, j);
    LinkHeld(s, p, t, j);
    PendSame(s, p, t);
    forall k
      ensures AgreeOn(t, k)
    {
      assert AgreeOn(s, k);
      LinkAgree(s, p, op, repl, j, k);
    }
    EnterWithin(s, p, t.procs[p]);
    NoPending(s, p, t.procs[p]);
    RetOk(t, p, op, Code(0), |s.log|);
    Preserve(s, p, t);
  }

  lemma LinkKnows(s: State, p: nat, op: Op, repl: bool, j: nat)
    requires Inv(s) && p < |s.procs| && s.procs[p] == LinkHead(op, repl, j)
    ensures Core(s) && Excl(s) && Ready(s, p, op, repl, j)
  {
    hide Inv, Core, Hash, Ready;
    InvPc(s, p);
  }

  lemma LinkHeld(s: State, p: nat, t: State, j: nat)
    requires HeldOk(s) && p < |s.procs| && p < |t.procs| && j < |s.ch.own| == |t.ch.own|
    requires t.ch.own[j] >= 0 && t.ch.own == s.ch.own[j := t.ch.own[j]] && Held(s.procs[p]) == Some(j)
    ensures HeldStep(s, p, t)
  {
  }
}
