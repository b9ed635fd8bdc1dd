/** Every step of every process keeps the invariant; what follows for runs. */
module DbRuns {
  import opened Values
  import opened IndexFile
  import opened DbStore
  import opened DbShared
  import opened DbInterleave
  import opened DbFrame
  import C = Chains

  // ---- From one process's obligations to the invariant ----------------------

  /** p has at most the record it should have in hand. */
  ghost predicate HeldStep(s: State, p: nat, t: State)
    requires |s.ch.own| <= |t.ch.own| && p < |t.procs|
  {
    forall j :: 0 <= j < |t.ch.own| && t.ch.own[j] <= -2 ==>
      if t.ch.own[j] == Tag(p) then Held(t.procs[p]) == Some(j) else j < |s.ch.own| && s.ch.own[j] == t.ch.own[j]
  }

  ghost predicate PendStep(s: State, p: nat, pc: Pc) {
    forall q :: 0 <= q < |s.procs| && q != p ==> PendApart(pc, s.procs[q]) && PendApart(s.procs[q], pc)
  }

  /** The lists p has locked are in order unless p is taking a record off one. */
  ghost predicate LinkStep(s: State, p: nat, t: State)
    requires Core(s) && Core(t) && p < |s.procs| && p < |t.procs|
  {
    forall i :: 0 <= i < NLISTS && Touches(s.procs[p], i) && Breaks(t.procs[p]) != Some(i) ==> C.LinkedList(t.ch, i)
  }

  lemma PreserveLinks(s: State, p: nat, t: State)
    requires Core(s) && LinkOk(s) && p < |s.procs| && Core(t) && Frame(s, p, t) && |t.procs| == |s.procs|
    requires LinkStep(s, p, t) && PcOk(s, p, s.procs[p])
    ensures LinkOk(t)
  {
    if Breaks(s.procs[p]).Some? {
      BreaksTouches(s, p);
    }
    hide Core, Frame, Hash, PcOk;
    PlacedCore(s);
    PlacedCore(t);
    forall i | 0 <= i < NLISTS && (forall q :: 0 <= q < |t.procs| ==> Breaks(t.procs[q]) != Some(i))
      ensures C.LinkedList(t.ch, i)
    {
      assert Breaks(t.procs[p]) != Some(i);
      if !Touches(s.procs[p], i) {
        forall q | 0 <= q < |s.procs|
          ensures Breaks(s.procs[q]) != Some(i)
        {
          if q != p {
            OthersStay(s, p, t, q);
            assert Breaks(t.procs[q]) != Some(i);
          }
        }
        Members(s, p, t, i);
        C.SameListLinked(s.ch, t.ch, i);
      }
    }
  }

  lemma BreaksTouches(s: State, p: nat)
    requires Core(s) && p < |s.procs| && PcOk(s, p, s.procs[p]) && Breaks(s.procs[p]).Some?
    ensures Touches(s.procs[p], Breaks(s.procs[p]).value)
  {
    hide Core, Hash, Leaving, Has;
  }

  lemma OthersStay(s: State, p: nat, t: State, q: nat)
    requires Core(s) && Core(t) && p < |s.procs| && Frame(s, p, t) && q < |s.procs| && q != p
    ensures |t.procs| == |s.procs| && t.procs[q] == s.procs[q]
  {
  }

  lemma PreserveOthers(s: State, p: nat, t: State)
    requires Inv(s) && p < |s.procs| && Core(t) && Frame(s, p, t) && |t.procs| == |s.procs|
    requires CanEnter(s, p, t.procs[p]) && HeldStep(s, p, t) && PendStep(s, p, t.procs[p])
    ensures Excl(t) && HeldOk(t) && PendingsApart(t)
  {
    hide Core, Frame, Agree, LinkOk, Linear, PcsOk, Compatible, PendApart, Held;
    forall q | 0 <= q < |s.procs| && q != p
      ensures t.procs[q] == s.procs[q]
    {
      OthersStay(s, p, t, q);
    }
    assert HeldOk(t) by {
      hide Excl, PendingsApart, CanEnter, PendStep;
    }
    hide HeldOk, HeldStep;
    forall x, y | 0 <= x < |t.procs| && 0 <= y < |t.procs| && x != y
      ensures Compatible(t.procs[x], t.procs[y]) && PendApart(t.procs[x], t.procs[y])
    {
      if x == p {
        assert Compatible(t.procs[p], s.procs[y]);
      } else if y == p {
        assert Compatible(t.procs[p], s.procs[x]);
        CompatibleSym(t.procs[p], s.procs[x]);
      } else {
        assert Compatible(s.procs[x], s.procs[y]) && PendApart(s.procs[x], s.procs[y]);
      }
    }
  }

  lemma CompatibleSym(x: Pc, y: Pc)
    requires Compatible(x, y)
    ensures Compatible(y, x)
  {
    hide Hash;
  }

  lemma Preserve(s: State, p: nat, t: State)
    requires Inv(s) && p < |s.procs| && Core(t) && Frame(s, p, t) && |t.procs| == |s.procs| && PendFrame(s, p, t)
    requires CanEnter(s, p, t.procs[p]) && HeldStep(s, p, t) && PendStep(s, p, t.procs[p]) && LinkStep(s, p, t)
    requires PcOk(t, p, t.procs[p]) && Agree(t) && Linear(t.log)
    ensures Inv(t)
  {
    PreserveOthers(s, p, t);
    PreserveLinks(s, p, t);
    hide Core, Frame, PendFrame, CanEnter, HeldStep, PendStep, LinkStep, PcOk, Agree, Linear, LinkOk, Excl, HeldOk;
    forall q | 0 <= q < |t.procs|
      ensures PcOk(t, q, t.procs[q])
    {
      if q != p {
        OthersStay(s, p, t, q);
        Stable(s, p, t, q);
      }
    }
  }

  // ---- Steps that only move the process -------------------------------------

  /** y holds every lock that x holds. */
  predicate LocksWithin(x: Pc, y: Pc) {
    && (Chain(x).Some? ==> Chain(x) == Chain(y) && (Writes(x) ==> Writes(y)))
    && (HoldsFree(x) ==> HoldsFree(y)) && (HoldsDat(x) ==> HoldsDat(y)) && (HoldsIdx(x) ==> HoldsIdx(y))
  }

  lemma EnterWithin(s: State, p: nat, pc: Pc)
    requires Excl(s) && p < |s.procs| && LocksWithin(pc, s.procs[p])
    ensures CanEnter(s, p, pc)
  {
    forall q | 0 <= q < |s.procs| && q != p
      ensures Compatible(pc, s.procs[q])
    {
      assert Compatible(s.procs[p], s.procs[q]);
    }
  }

  /** Nothing but locks and local variables differs. */
  predicate SameHand(x: Pc, y: Pc) {
    && Held(x) == Held(y) && Breaks(x) == Breaks(y) && Flux(x) == Flux(y) && Pending(x) == Pending(y)
    && (Pending(x).Some? ==> x.op == y.op)
  }

  lemma MoveExcl(s: State, p: nat, pc: Pc)
    requires Excl(s) && PendingsApart(s) && p < |s.procs| && CanEnter(s, p, pc) && SameHand(pc, s.procs[p])
    ensures Excl(Go(s, p, pc)) && PendingsApart(Go(s, p, pc))
  {
    hide Hash;
    var t := Go(s, p, pc);
    forall x, y | 0 <= x < |t.procs| && 0 <= y < |t.procs| && x != y
      ensures Compatible(t.procs[x], t.procs[y]) && PendApart(t.procs[x], t.procs[y])
    {
      assert Compatible(s.procs[x], s.procs[y]) && PendApart(s.procs[x], s.procs[y]);
    }
  }

  lemma MoveLinks(s: State, p: nat, pc: Pc)
    requires Core(s) && LinkOk(s) && p < |s.procs| && Breaks(pc) == Breaks(s.procs[p])
    ensures Core(Go(s, p, pc)) && LinkOk(Go(s, p, pc))
  {
    hide Hash, KeysOk, DataOk, C.Placed, C.LinkedList;
    var t := Go(s, p, pc);
    forall i | 0 <= i < NLISTS && (forall q :: 0 <= q < |t.procs| ==> Breaks(t.procs[q]) != Some(i))
      ensures C.LinkedList(t.ch, i)
    {
      forall q | 0 <= q < |s.procs|
        ensures Breaks(s.procs[q]) != Some(i)
      {
        assert Breaks(t.procs[q]) != Some(i);
      }
    }
  }

  lemma MoveParts(s: State, p: nat, pc: Pc)
    requires Inv(s) && p < |s.procs| && CanEnter(s, p, pc) && SameHand(pc, s.procs[p])
    ensures var t := Go(s, p, pc); Core(t) && Excl(t) && HeldOk(t) && PendingsApart(t) && LinkOk(t)
  {
    hide Core, Agree, Linear, PcsOk, LinkOk, Excl, PendingsApart, CanEnter;
    MoveExcl(s, p, pc);
    MoveLinks(s, p, pc);
  }

  lemma MoveAgrees(s: State, p: nat, pc: Pc, k: Key)
    requires Core(s) && AgreeOn(s, k) && p < |s.procs| && Flux(pc) == Flux(s.procs[p])
    ensures AgreeOn(Go(s, p, pc), k)
  {
    var t := Go(s, p, pc);
    if InFlux(s, k) {
      var q :| 0 <= q < |s.procs| && Flux(s.procs[q]) == Some(k);
      assert Flux(t.procs[q]) == Some(k);
    }
    if InFlux(t, k) {
      var q :| 0 <= q < |t.procs| && Flux(t.procs[q]) == Some(k);
      assert Flux(s.procs[q]) == Some(k);
    }
  }

  /** What a process knows does not depend on where the others are, nor on what they
      log. */
  lemma PcOkAnywhere(s: State, t: State, q: nat, pc: Pc)
    requires Core(s) && Core(t) && t == s.(procs := t.procs, log := t.log) && s.log <= t.log
    requires PcOk(s, q, pc)
    ensures PcOk(t, q, pc)
  {
    hide KeysOk, DataOk, C.Placed, Data, Hash, C.LinkedBut, Core;
    PlacedCore(s);
    PlacedCore(t);
    if Deletes(pc) {
      PcOkDeleting(s, t, q, pc);
    } else if Inserts(pc) {
      PcOkInserting(s, t, q, pc);
    } else if Appends(pc) {
      PcOkAppending(s, t, q, pc);
    }
  }

  lemma PcOkDeleting(s: State, t: State, q: nat, pc: Pc)
    requires Core(s) && Core(t) && t == s.(procs := t.procs, log := t.log) && s.log <= t.log
    requires PcOk(s, q, pc) && Deletes(pc)
    ensures PcOk(t, q, pc)
  {
    hide Core, KeysOk, DataOk, C.Placed, Data, Hash, C.LinkedBut, C.PtrTo, WalksChain, WalksFree, Inserting;
    hide Appending, Ready, PendingOk, Located, Leaving;
    PlacedCore(s);
    PlacedCore(t);
    if !pc.DelUnlock? {
      SameChains(s, t, pc.op, pc.j, pc.a, pc.prev, pc.save);
    }
  }

  lemma SameChains(s: State, t: State, op: Op, j: nat, a: nat, prev: int, save: int)
    requires Core(s) && Core(t) && t.ch == s.ch && t.recs == s.recs && t.at == s.at
    ensures Located(t, op, j, a, prev, save) == Located(s, op, j, a, prev, save)
    ensures Leaving(t, op, j, a, prev, save) == Leaving(s, op, j, a, prev, save)
  {
    hide KeysOk, DataOk, C.Placed, C.LinkedBut, Hash;
  }

  lemma PcOkInserting(s: State, t: State, q: nat, pc: Pc)
    requires Core(s) && Core(t) && t == s.(procs := t.procs, log := t.log) && s.log <= t.log
    requires PcOk(s, q, pc) && Inserts(pc)
    ensures PcOk(t, q, pc)
  {
    hide Core, KeysOk, DataOk, C.Placed, Data, Hash, C.LinkedBut, C.PtrTo, WalksChain, Appending, Ready, PendingOk;
    hide Located, Leaving;
    PlacedCore(s);
    PlacedCore(t);
  }

  lemma PcOkAppending(s: State, t: State, q: nat, pc: Pc)
    requires Core(s) && Core(t) && t == s.(procs := t.procs, log := t.log) && s.log <= t.log
    requires PcOk(s, q, pc) && Appends(pc)
    ensures PcOk(t, q, pc)
  {
    hide Core, KeysOk, DataOk, C.Placed, Data, Hash, C.LinkedBut, C.PtrTo, WalksChain, WalksFree, Located, Leaving;
    hide Inserting, Apart;
    PlacedCore(s);
    PlacedCore(t);
  }

  lemma Move(s: State, p: nat, pc: Pc)
    requires Inv(s) && p < |s.procs| && CanEnter(s, p, pc) && SameHand(pc, s.procs[p]) && PcOk(s, p, pc)
    ensures Inv(Go(s, p, pc))
  {
    hide Core, Excl, HeldOk, PendingsApart, LinkOk, CanEnter, PcOk, Linear, AgreeOn;
    hide KeysOk, DataOk, C.Placed;
    MoveParts(s, p, pc);
    var t := Go(s, p, pc);
    PlacedCore(s);
    PlacedCore(t);
    forall k
      ensures AgreeOn(t, k)
    {
      assert AgreeOn(s, k);
      MoveAgrees(s, p, pc, k);
    }
    forall q | 0 <= q < |t.procs|
      ensures PcOk(t, q, t.procs[q])
    {
      PcOkAnywhere(s, t, q, t.procs[q]);
    }
  }

  // ---- Calls that take effect without a write -------------------------------

  lemma LinearMore(log: seq<Entry>, e: Entry)
    requires Linear(log) && e.reply == MapReply(Abs(log), e.op)
    ensures Linear(log + [e]) && Abs(log + [e]) == MapAfter(Abs(log), e.op)
  {
    hide Abs;
    var m := log + [e];
    assert m[..|log|] == log;
    forall n | 0 <= n < |m|
      ensures m[n].reply == MapReply(Abs(m[..n]), m[n].op)
    {
      if n < |log| {
        assert m[..n] == log[..n];
      }
    }
    AbsLast(m);
  }

  lemma AbsLast(log: seq<Entry>)
    requires log != []
    ensures Abs(log) == MapAfter(Abs(log[..|log| - 1]), log[|log| - 1].op)
  {
  }

  /** An entry that leaves the map as it is. */
  lemma Record(s: State, e: Entry)
    requires Inv(s) && e.reply == MapReply(Abs(s.log), e.op) && MapAfter(Abs(s.log), e.op) == Abs(s.log)
    ensures Inv(s.(log := s.log + [e]))
  {
    var t := s.(log := s.log + [e]);
    LinearMore(s.log, e);
    hide Abs, MapAfter, MapReply, Linear;
    assert Core(t) && Excl(t) && HeldOk(t) && PendingsApart(t) && LinkOk(t);
    hide Core, Excl, HeldOk, PendingsApart, LinkOk, PcOk;
    PlacedCore(s);
    PlacedCore(t);
    forall k
      ensures AgreeOn(t, k)
    {
      assert AgreeOn(s, k);
      assert InFlux(t, k) <==> InFlux(s, k);
    }
    forall q | 0 <= q < |t.procs|
      ensures PcOk(t, q, t.procs[q])
    {
      PcOkAnywhere(s, t, q, t.procs[q]);
    }
  }

  /** A process that has nothing in hand and has a call under way. */
  predicate EmptyHanded(pc: Pc) {
    InCall(pc) && Held(pc).None? && Breaks(pc).None? && Flux(pc).None? && Pending(pc).None?
  }

  lemma Conclude(s: State, p: nat, op: Op, reply: Reply)
    requires Inv(s) && p < |s.procs| && EmptyHanded(s.procs[p]) && s.procs[p].op == op
    requires reply == MapReply(Abs(s.log), op) && MapAfter(Abs(s.log), op) == Abs(s.log)
    ensures Inv(Finish(s, p, op, reply))
  {
    hide Inv, Hash, Core, Excl, CanEnter, MapReply, MapAfter, Abs;
    var e, pc := Entry(p, op, reply), Ret(op, reply, |s.log|);
    Record(s, e);
    var t := s.(log := s.log + [e]);
    InvCore(t);
    EnterWithin(t, p, pc);
    Move(t, p, pc);
    assert Go(t, p, pc) == Finish(s, p, op, reply);
  }

  lemma InvCore(s: State)
    requires Inv(s)
    ensures Core(s) && Excl(s)
  {
  }

  // ---- What a lock on a chain gives -----------------------------------------

  lemma FluxWrites(s: State, q: nat)
    requires Core(s) && q < |s.procs| && PcOk(s, q, s.procs[q]) && Flux(s.procs[q]).Some?
    ensures Writes(s.procs[q]) && Flux(s.procs[q]).value == s.procs[q].op.key
  {
    hide Core, Hash, Leaving, Has, PendingOk;
  }

  /** While p is in a call on a key and not itself replacing it, nobody is. */
  lemma NoFlux(s: State, p: nat)
    requires Inv(s) && p < |s.procs| && InCall(s.procs[p]) && Flux(s.procs[p]).None?
    ensures !InFlux(s, s.procs[p].op.key)
  {
    hide Core, Agree, LinkOk, PcOk;
    var k := s.procs[p].op.key;
    forall q | 0 <= q < |s.procs|
      ensures Flux(s.procs[q]) != Some(k)
    {
      assert q != p ==> Compatible(s.procs[p], s.procs[q]);
      if Flux(s.procs[q]).Some? {
        assert PcOk(s, q, s.procs[q]);
        FluxWrites(s, q);
      }
    }
  }

  /** The live records answer for the plain map. */
  lemma Answers(s: State, p: nat)
    requires Inv(s) && p < |s.procs| && InCall(s.procs[p]) && Flux(s.procs[p]).None?
    ensures var k := s.procs[p].op.key;
      && (k in s.at <==> k in Abs(s.log))
      && (k in s.at ==> s.at[k] < |s.recs| && RegionIn(s.dat, s.recs[s.at[k]])
                        && Abs(s.log)[k] == Data(s.dat, s.recs[s.at[k]]))
  {
    NoFlux(s, p);
    hide PcsOk, LinkOk, Excl, HeldOk, PendingsApart, Linear, Abs, Hash;
    assert AgreeOn(s, s.procs[p].op.key);
  }

  /** A chain that p has locked and is not taking apart. */
  lemma ChainLinked(s: State, p: nat)
    requires Inv(s) && p < |s.procs| && InCall(s.procs[p]) && Breaks(s.procs[p]).None?
    ensures C.Shape(s.ch) && C.Placed(s.ch) && |s.ch.lists| == NLISTS
    ensures C.LinkedList(s.ch, ChainOf(s.procs[p].op.key))
  {
    hide Agree, HeldOk, PendingsApart, Linear, Hash, PcOk, KeysOk, DataOk;
    var i := ChainOf(s.procs[p].op.key);
    forall q | 0 <= q < |s.procs|
      ensures Breaks(s.procs[q]) != Some(i)
    {
      assert q != p ==> Compatible(s.procs[p], s.procs[q]);
      if Breaks(s.procs[q]).Some? {
        assert PcOk(s, q, s.procs[q]);
        BreaksTouches(s, q);
      }
    }
  }

  lemma FreeLinked(s: State)
    requires Inv(s)
    ensures C.Shape(s.ch) && C.Placed(s.ch) && |s.ch.lists| == NLISTS
    ensures C.LinkedList(s.ch, FREE)
  {
    hide Agree, HeldOk, PendingsApart, Linear, Hash, PcOk, KeysOk, DataOk, Excl;
    forall q | 0 <= q < |s.procs|
      ensures Breaks(s.procs[q]) != Some(FREE)
    {
    }
  }

  /** A key is in the database if and only if a record of its chain holds it. */
  lemma ChainHolds(s: State, key: Key)
    requires Core(s)
    ensures var l := s.ch.lists[ChainOf(key)];
      && (forall b :: 0 <= b < |l| ==> l[b] < |s.recs|)
      && (forall b :: 0 <= b < |l| && s.recs[l[b]].key == key ==> key in s.at && s.at[key] == l[b])
      && (key in s.at ==> exists b :: 0 <= b < |l| && s.recs[l[b]].key == key)
  {
    hide DataOk, Hash;
    var l := s.ch.lists[ChainOf(key)];
    forall b | 0 <= b < |l|
      ensures s.ch.own[l[b]] == ChainOf(key)
    {
    }
    if key in s.at {
      var j := s.at[key];
      assert s.ch.own[j] == ChainOf(key);
      assert j in l;
    }
  }
}
