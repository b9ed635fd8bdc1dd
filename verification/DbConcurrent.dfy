/** Runs of any number of processes on one database: every step keeps the invariant,
    every reply is that of a plain map, and no set of calls can deadlock. */
module DbConcurrent {
  import opened Values
  import opened Ascii
  import opened IndexCodec
  import opened IndexFile
  import opened DbStore
  import opened DbShared
  import opened DbInterleave
  import opened DbFrame
  import opened DbRuns
  import opened DbReads
  import opened DbWrites
  import opened DbAppends
  import opened DbRelinks
  import C = Chains

  // ---- Every step keeps the invariant ---------------------------------------

  lemma LockStep(s: State, p: nat, pc: Pc)
    requires Inv(s) && p < |s.procs| && CanEnter(s, p, pc) && SameHand(pc, s.procs[p]) && Core(s) && PcOk(s, p, pc)
    ensures Inv(Go(s, p, pc))
  {
    Move(s, p, pc);
  }

  /** The steps of a search that only move the process. */
  lemma FindMoves(s: State, p: nat, pc: Pc)
    requires Inv(s) && p < |s.procs| && C.Shape(s.ch) && |s.ch.lists| == NLISTS
    requires match s.procs[p]
      case Idle => pc.WantChain? && Startable(pc.op)
      case WantChain(op) => pc == FindHead(op) && CanEnter(s, p, pc)
      case Ret(_, _, _) => pc == Idle
      case ReadHead(op) => pc == FFWant(op, s.ch.heads[ChainOf(op.key)])
      case ReHead(op) => pc == DatWant(op, s.ch.heads[ChainOf(op.key)], true)
      case _ => false
    ensures Inv(Go(s, p, pc))
  {
    hide Inv, Core, Hash, CanEnter, KeysOk, DataOk;
    InvPc(s, p);
    if s.procs[p].WantChain? {
      LockStep(s, p, pc);
    } else {
      Walk(s, p, pc);
    }
  }

  lemma FindSteps(s: State, p: nat, t: State)
    requires Inv(s) && p < |s.procs| && !Deletes(s.procs[p]) && !Inserts(s.procs[p]) && !Appends(s.procs[p])
    requires NextFind(s, p, t)
    ensures Inv(t)
  {
    hide Inv, Core, Hash, CanEnter, C.Placed, KeysOk, DataOk, OnHit, OnMiss, Finish, WalksChain, PcOk;
    InvPc(s, p);
    PlacedCore(s);
    match s.procs[p]
    case FindHead(op) => FindHeadStep(s, p, op);
    case FindRec(op, a, prev, cur) =>
      if cur == 0 {
        MissStep(s, p, op, a, prev, cur);
      } else if s.recs[cur - 1].key == op.key {
        HitStep(s, p, op, a, prev, cur);
      } else {
        NextRecStep(s, p, op, a, prev, cur);
      }
    case FetchDat(op, j) => FetchStep(s, p, op, j);
    case OverDat(op, j) => OverDatStep(s, p, op, j);
    case Idle => FindMoves(s, p, t.procs[p]);
    case WantChain(op) => FindMoves(s, p, t.procs[p]);
    case Ret(_, _, _) => FindMoves(s, p, t.procs[p]);
    case ReadHead(op) => FindMoves(s, p, t.procs[p]);
    case ReHead(op) => FindMoves(s, p, t.procs[p]);
  }

  /** The steps of a delete that only move the process. */
  lemma DeleteMoves(s: State, p: nat, pc: Pc)
    requires Inv(s) && p < |s.procs| && C.Shape(s.ch) && |s.ch.lists| == NLISTS
    requires match s.procs[p]
      case DelWant(op, j, a, prev, save) => pc == DelDat(op, j, a, prev, save) && CanEnter(s, p, pc)
      case DelFree(op, j, a, prev, save, n) => pc == DelIdx(op, j, a, prev, save, n, s.ch.heads[FREE])
      case DelUnlock(op, n) => pc == if op.DoDelete? then Ret(op, Code(0), n) else ReHead(op)
      case _ => false
    ensures Inv(Go(s, p, pc))
  {
    hide Inv, Core, Hash, CanEnter, KeysOk, DataOk, Located, Leaving;
    InvPc(s, p);
    if s.procs[p].DelWant? {
      LockStep(s, p, pc);
    } else {
      Walk(s, p, pc);
    }
  }

  lemma DeleteSteps(s: State, p: nat, t: State)
    requires Inv(s) && p < |s.procs| && Deletes(s.procs[p]) && NextDelete(s, p, t)
    ensures Inv(t)
  {
    hide Inv, Core, Hash, CanEnter, C.Placed, KeysOk, DataOk, BlankData, WriteIdx, PushFree, WritePtr, PcOk;
    InvPc(s, p);
    PlacedCore(s);
    match s.procs[p]
    case DelDat(op, j, a, prev, save) => DelDatStep(s, p, op, j, a, prev, save);
    case DelIdx(op, j, a, prev, save, n, fp) => DelIdxStep(s, p, op, j, a, prev, save, n, fp);
    case DelHead(op, j, a, prev, save, n) => DelHeadStep(s, p, op, j, a, prev, save, n);
    case DelPrev(op, j, a, prev, save, n) => DelPrevStep(s, p, op, j, a, prev, save, n);
    case DelWant(op, j, a, prev, save) => DeleteMoves(s, p, t.procs[p]);
    case DelFree(op, j, a, prev, save, n) => DeleteMoves(s, p, t.procs[p]);
    case DelUnlock(op, n) => DeleteMoves(s, p, t.procs[p]);
  }

  /** The steps of a search for a free record that only move the process. */
  lemma InsertMoves(s: State, p: nat, pc: Pc)
    requires Inv(s) && p < |s.procs|
    requires match s.procs[p]
      case FFWant(op, ptr) => pc == FFHead(op, ptr) && CanEnter(s, p, pc)
      case FFUnlock(op, ptr, found) =>
        pc == if found.Some? then ReDat(op, ptr, found.value) else DatWant(op, ptr, false)
      case _ => false
    ensures Inv(Go(s, p, pc))
  {
    hide Inv, Core, Hash, CanEnter, KeysOk, DataOk, Inserting, Has;
    InvPc(s, p);
    if s.procs[p].FFWant? {
      LockStep(s, p, pc);
    } else {
      InsertFlag(s, s.procs[p].op, s.procs[p].ptr);
      Walk(s, p, pc);
    }
  }

  lemma InsertSteps(s: State, p: nat, t: State)
    requires Inv(s) && p < |s.procs| && Inserts(s.procs[p]) && NextInsert(s, p, t)
    ensures Inv(t)
  {
    hide Inv, Core, Hash, CanEnter, C.Placed, KeysOk, DataOk, WriteIdx, WriteDat, TakeFree, PcOk;
    InvPc(s, p);
    PlacedCore(s);
    match s.procs[p]
    case FFHead(op, ptr) => FFHeadStep(s, p, op, ptr);
    case FFRec(op, ptr, a, prev, cur) => FFRecStep(s, p, op, ptr, a, prev, cur);
    case FFTake(op, ptr, a, prev, j) => FFTakeStep(s, p, op, ptr, a, prev, j);
    case ReDat(op, ptr, j) => ReDatStep(s, p, op, ptr, j);
    case ReIdx(op, ptr, j) => ReIdxStep(s, p, op, ptr, j);
    case FFWant(op, ptr) => InsertMoves(s, p, t.procs[p]);
    case FFUnlock(op, ptr, found) => InsertMoves(s, p, t.procs[p]);
  }

  lemma InsertFlag(s: State, op: Op, ptr: int)
    requires Core(s) && Inserting(s, op, ptr)
    ensures Appending(s, op, ptr, false)
  {
  }

  /** The steps of an append that only take or drop a lock. */
  lemma AppendLocks(s: State, p: nat, pc: Pc)
    requires Inv(s) && p < |s.procs|
    requires match s.procs[p]
      case DatWant(op, ptr, repl) => pc == DatApp(op, ptr, repl) && CanEnter(s, p, pc)
      case DatUnlock(op, ptr, repl, off) => pc == IdxWant(op, ptr, repl, off)
      case IdxWant(op, ptr, repl, off) => pc == IdxApp(op, ptr, repl, off) && CanEnter(s, p, pc)
      case IdxUnlock(op, repl, j) => pc == LinkHead(op, repl, j)
      case _ => false
    ensures Inv(Go(s, p, pc))
  {
    hide Inv, Core, Hash, CanEnter, Appending, PendingOk, Ready;
    InvPc(s, p);
    if s.procs[p].DatWant? || s.procs[p].IdxWant? {
      LockStep(s, p, pc);
    } else {
      Walk(s, p, pc);
    }
  }

  lemma AppendSteps(s: State, p: nat, t: State)
    requires Inv(s) && p < |s.procs| && Appends(s.procs[p]) && NextAppend(s, p, t)
    ensures Inv(t)
  {
    hide Inv, Core, Hash, CanEnter, C.Placed, KeysOk, DataOk, PcOk, WriteDat, AppendIdx, Link, Die;
    match s.procs[p]
    case DatWant(op, ptr, repl) => AppendLocks(s, p, DatApp(op, ptr, repl));
    case DatApp(op, ptr, repl) => DatAppStep(s, p, op, ptr, repl);
    case DatUnlock(op, ptr, repl, off) => AppendLocks(s, p, IdxWant(op, ptr, repl, off));
    case IdxWant(op, ptr, repl, off) =>
      if t == Die(s, p) {
        DieStep(s, p);
      } else {
        AppendLocks(s, p, IdxApp(op, ptr, repl, off));
      }
    case IdxApp(op, ptr, repl, off) => IdxAppStep(s, p, op, ptr, repl, off);
    case IdxUnlock(op, repl, j) => AppendLocks(s, p, LinkHead(op, repl, j));
    case LinkHead(op, repl, j) =>
      if t == Die(s, p) {
        DieStep(s, p);
      } else {
        LinkHeadStep(s, p, op, repl, j);
      }
  }

  /** One step of any process. */
  lemma InvNext(s: State, p: nat, t: State)
    requires Inv(s) && p < |s.procs| && Next(s, p, t)
    ensures Inv(t)
  {
    hide Inv, NextFind, NextDelete, NextInsert, NextAppend;
    if Deletes(s.procs[p]) {
      DeleteSteps(s, p, t);
    } else if Inserts(s.procs[p]) {
      InsertSteps(s, p, t);
    } else if Appends(s.procs[p]) {
      AppendSteps(s, p, t);
    } else {
      FindSteps(s, p, t);
    }
  }

  // ---- Runs -----------------------------------------------------------------

  /** A fresh database and n processes. */
  ghost function Init(n: nat): State {
    State(Fresh().ch, [], map[], [], seq(n, _ => Idle), [])
  }

  lemma InitInv(n: nat)
    ensures Inv(Init(n))
  {
    var s := Init(n);
    assert Core(s) && LinkOk(s) by {
      C.EmptyGood(NLISTS);
      FreshValid();
    }
    hide Core, LinkOk;
    PlacedCore(s);
    assert Agree(s) by {
      hide KeysOk, DataOk, C.Placed;
    }
  }

  ghost predicate Enabled(s: State) {
    C.Shape(s.ch) && C.Placed(s.ch) && |s.ch.lists| == NLISTS && |s.ch.ptrs| == |s.recs|
  }

  /** Process who[k] takes step k of the run. */
  ghost predicate IsRun(n: nat, run: seq<State>, who: seq<nat>) {
    && |run| == |who| + 1 && run[0] == Init(n)
    && forall k {:trigger who[k]} :: 0 <= k < |who| ==>
      Enabled(run[k]) && who[k] < |run[k].procs| && Next(run[k], who[k], run[k + 1])
  }

  lemma {:induction false} RunInv(n: nat, run: seq<State>, who: seq<nat>, k: nat)
    requires IsRun(n, run, who) && k < |run|
    ensures Inv(run[k])
  {
    hide Inv, Next, Init, Enabled;
    if k == 0 {
      InitInv(n);
    } else {
      RunInv(n, run, who, k - 1);
      assert who[k - 1] < |run[k - 1].procs|;
      InvNext(run[k - 1], who[k - 1], run[k - 1 + 1]);
    }
  }

  // ---- What runs guarantee --------------------------------------------------

  /** Every call that is about to return has taken effect at one place of the
      log, and replies what a plain map would reply there. */
  lemma RepliesAreLinear(n: nat, run: seq<State>, who: seq<nat>, k: nat, p: nat)
    requires IsRun(n, run, who) && k < |run| && p < |run[k].procs| && run[k].procs[p].Ret?
    ensures var s, pc := run[k], run[k].procs[p];
      && pc.n < |s.log| && s.log[pc.n] == Entry(p, pc.op, pc.reply)
      && pc.reply == MapReply(Abs(s.log[..pc.n]), pc.op) && Linear(s.log)
  {
    var s := run[k];
    RunInv(n, run, who, k);
    hide Inv, IsRun, Core, MapReply, Abs;
    InvPc(s, p);
    InvParts(s);
    assert s.log[s.procs[p].n].reply == MapReply(Abs(s.log[..s.procs[p].n]), s.log[s.procs[p].n].op);
  }

  /** The record a fetch is about to read holds the value that is bound to its
      key. */
  lemma FetchReadsBinding(n: nat, run: seq<State>, who: seq<nat>, k: nat, p: nat)
    requires IsRun(n, run, who) && k < |run| && p < |run[k].procs| && run[k].procs[p].FetchDat?
    ensures var s, pc := run[k], run[k].procs[p];
      && pc.op.key in Abs(s.log) && pc.j < |s.recs| && RegionIn(s.dat, s.recs[pc.j])
      && Data(s.dat, s.recs[pc.j]) == Abs(s.log)[pc.op.key]
  {
    RunInv(n, run, who, k);
    hide Inv, IsRun, Core, Data, Abs, Hash;
    InvPc(run[k], p);
    Answers(run[k], p);
  }

  // ---- Nobody waits for a cycle ---------------------------------------------

  predicate Waits(pc: Pc) { pc.WantChain? || pc.DelWant? || pc.FFWant? || pc.DatWant? || pc.IdxWant? }

  predicate Busy(pc: Pc) { !pc.Idle? && !pc.Dead? }

  /** A process that waits for no lock can take a step. */
  lemma CanStep(s: State, p: nat) returns (t: State)
    requires Inv(s) && p < |s.procs| && Busy(s.procs[p]) && !Waits(s.procs[p])
    ensures Core(s) && Next(s, p, t) && |t.procs| == |s.procs| && !t.procs[p].Dead?
  {
    InvPc(s, p);
    hide Inv, Core, Hash, PcOk, NextFind, NextDelete, NextInsert, NextAppend;
    PlacedCore(s);
    if Deletes(s.procs[p]) {
      t := CanDelete(s, p);
    } else if Inserts(s.procs[p]) {
      t := CanInsert(s, p);
    } else if Appends(s.procs[p]) {
      t := CanAppend(s, p);
    } else {
      t := CanFind(s, p);
    }
  }

  lemma CanFind(s: State, p: nat) returns (t: State)
    requires Inv(s) && p < |s.procs| && Busy(s.procs[p]) && !Waits(s.procs[p])
    requires !Deletes(s.procs[p]) && !Inserts(s.procs[p]) && !Appends(s.procs[p])
    ensures Core(s) && NextFind(s, p, t) && |t.procs| == |s.procs| && !t.procs[p].Dead?
  {
    hide Inv, Core, Hash, KeysOk, DataOk, C.Placed, Data, WalksChain;
    InvPc(s, p);
    PlacedCore(s);
    match s.procs[p]
    case FindHead(op) => t := Go(s, p, FindRec(op, 0, 0, s.ch.heads[ChainOf(op.key)]));
    case FindRec(op, a, prev, cur) =>
      FindInRange(s, p, op, a, prev, cur);
      t := if cur == 0 then OnMiss(s, p, op)
           else if s.recs[cur - 1].key == op.key then OnHit(s, p, op, cur - 1, a, prev)
           else Go(s, p, FindRec(op, a + 1, cur, s.recs[cur - 1].ptr));
    case FetchDat(op, j) =>
      FetchStep(s, p, op, j);
      t := Finish(s, p, op, Value(Some(Data(s.dat, s.recs[j]))));
    case Ret(_, _, _) => t := Go(s, p, Idle);
    case ReadHead(op) => t := Go(s, p, FFWant(op, s.ch.heads[ChainOf(op.key)]));
    case ReHead(op) => t := Go(s, p, DatWant(op, s.ch.heads[ChainOf(op.key)], true));
    case OverDat(op, j) =>
      OverDatStep(s, p, op, j);
      t := Finish(WriteDat(s, s.recs[j].datoff, op.data), p, op, Code(0));
  }

  lemma FindInRange(s: State, p: nat, op: Op, a: nat, prev: int, cur: int)
    requires Inv(s) && p < |s.procs| && s.procs[p] == FindRec(op, a, prev, cur)
    ensures 0 <= cur <= |s.recs|
  {
    hide Inv, Core, Hash;
    ChainStep(s, p, op, a, prev, cur);
    PlacedCore(s);
  }

  lemma CanDelete(s: State, p: nat) returns (t: State)
    requires Inv(s) && p < |s.procs| && Deletes(s.procs[p]) && !Waits(s.procs[p])
    ensures Core(s) && NextDelete(s, p, t) && |t.procs| == |s.procs| && !t.procs[p].Dead?
  {
    hide Inv, Core, Hash, KeysOk, DataOk, PcOk;
    InvPc(s, p);
    PlacedCore(s);
    match s.procs[p]
    case DelDat(op, j, a, prev, save) =>
      DelDatStep(s, p, op, j, a, prev, save);
      t := BlankData(s, p, op, j, a, prev, save);
    case DelFree(op, j, a, prev, save, n) => t := Go(s, p, DelIdx(op, j, a, prev, save, n, s.ch.heads[FREE]));
    case DelIdx(op, j, a, prev, save, n, fp) =>
      DelIdxStep(s, p, op, j, a, prev, save, n, fp);
      t := Go(WriteIdx(s, j, Blanks(|s.recs[j].key|), fp), p, DelHead(op, j, a, prev, save, n));
    case DelHead(op, j, a, prev, save, n) =>
      DelHeadStep(s, p, op, j, a, prev, save, n);
      t := Go(PushFree(s, j), p, DelPrev(op, j, a, prev, save, n));
    case DelPrev(op, j, a, prev, save, n) =>
      DelPrevStep(s, p, op, j, a, prev, save, n);
      t := Go(WritePtr(s, ChainOf(op.key), prev, save), p, DelUnlock(op, n));
    case DelUnlock(op, n) => t := Go(s, p, if op.DoDelete? then Ret(op, Code(0), n) else ReHead(op));
  }

  lemma CanInsert(s: State, p: nat) returns (t: State)
    requires Inv(s) && p < |s.procs| && Inserts(s.procs[p]) && !Waits(s.procs[p])
    ensures Core(s) && NextInsert(s, p, t) && |t.procs| == |s.procs| && !t.procs[p].Dead?
  {
    hide Inv, Core, Hash, KeysOk, DataOk, PcOk, C.Placed;
    InvPc(s, p);
    PlacedCore(s);
    match s.procs[p]
    case FFHead(op, ptr) => t := Go(s, p, FFRec(op, ptr, 0, 0, s.ch.heads[FREE]));
    case FFRec(op, ptr, a, prev, cur) =>
      FFRecStep(s, p, op, ptr, a, prev, cur);
      t := Go(s, p,
        if cur == 0 then FFUnlock(op, ptr, None)
        else if |s.recs[cur - 1].key| == |op.key| && s.recs[cur - 1].datlen == |op.data| + 1
        then FFTake(op, ptr, a, prev, cur - 1)
        else FFRec(op, ptr, a + 1, cur, s.recs[cur - 1].ptr));
    case FFTake(op, ptr, a, prev, j) =>
      FFTakeStep(s, p, op, ptr, a, prev, j);
      t := Go(TakeFree(s, p, a, prev, j), p, FFUnlock(op, ptr, Some(j)));
    case FFUnlock(op, ptr, found) =>
      t := Go(s, p, if found.Some? then ReDat(op, ptr, found.value) else DatWant(op, ptr, false));
    case ReDat(op, ptr, j) =>
      ReDatStep(s, p, op, ptr, j);
      t := Go(WriteDat(s, s.recs[j].datoff, op.data), p, ReIdx(op, ptr, j));
    case ReIdx(op, ptr, j) =>
      ReIdxStep(s, p, op, ptr, j);
      t := Go(WriteIdx(s, j, op.key, ptr), p, LinkHead(op, false, j));
  }

  lemma CanAppend(s: State, p: nat) returns (t: State)
    requires Inv(s) && p < |s.procs| && Appends(s.procs[p]) && !Waits(s.procs[p])
    ensures Core(s) && NextAppend(s, p, t) && |t.procs| == |s.procs| && !t.procs[p].Dead?
  {
    hide Inv, Core, Hash, KeysOk, DataOk, PcOk, C.Placed;
    InvPc(s, p);
    PlacedCore(s);
    match s.procs[p]
    case DatApp(op, ptr, repl) =>
      DatAppStep(s, p, op, ptr, repl);
      t := Go(WriteDat(s, |s.dat|, op.data), p, DatUnlock(op, ptr, repl, |s.dat|));
    case DatUnlock(op, ptr, repl, off) => t := Go(s, p, IdxWant(op, ptr, repl, off));
    case IdxApp(op, ptr, repl, off) =>
      IdxAppStep(s, p, op, ptr, repl, off);
      t := Go(AppendIdx(s, p, Rec(ptr, op.key, off, |op.data| + 1)), p, IdxUnlock(op, repl, |s.recs|));
    case IdxUnlock(op, repl, j) => t := Go(s, p, LinkHead(op, repl, j));
    case LinkHead(op, repl, j) =>
      LinkHeadStep(s, p, op, repl, j);
      t := Link(s, p, op, j);
  }

  /** The point a waiting process goes to once it has its lock. */
  function Granted(pc: Pc): Pc
    requires Waits(pc)
  {
    match pc
    case WantChain(op) => FindHead(op)
    case DelWant(op, j, a, prev, save) => DelDat(op, j, a, prev, save)
    case FFWant(op, ptr) => FFHead(op, ptr)
    case DatWant(op, ptr, repl) => DatApp(op, ptr, repl)
    case IdxWant(op, ptr, repl, off) => IdxApp(op, ptr, repl, off)
  }

  lemma GrantedStep(s: State, p: nat)
    requires Inv(s) && Core(s) && p < |s.procs| && Waits(s.procs[p]) && CanEnter(s, p, Granted(s.procs[p]))
    ensures Next(s, p, Go(s, p, Granted(s.procs[p]))) && !Granted(s.procs[p]).Dead?
  {
    hide Inv, Core, Hash;
    PlacedCore(s);
  }

  /** d are calls in progress, and those of them that wait do not wait for others. */
  ghost predicate Waiting(s: State, d: set<nat>) {
    && (forall p :: p in d ==> p < |s.procs| && Busy(s.procs[p]))
    && (forall p, q: nat :: p in d && Waits(s.procs[p]) && q < |s.procs| && q !in d ==>
          Compatible(Granted(s.procs[p]), s.procs[q]))
  }

  /** A process that waits for the free-list, data or append lock has a chain lock, and
      no process that waits has one of the three. */
  lemma InnerFree(x: Pc, y: Pc)
    requires Waits(x) && !x.WantChain? && Waits(y) && Compatible(x, y)
    ensures Compatible(Granted(x), y)
  {
    hide Hash;
  }

  lemma OuterFree(x: Pc, y: Pc)
    requires x.WantChain? && y.WantChain?
    ensures Compatible(Granted(x), y)
  {
    hide Hash;
  }

  lemma SomeEnters(s: State, d: set<nat>, p: nat)
    requires Excl(s) && Waiting(s, d) && p in d && forall q :: q in d ==> Waits(s.procs[q])
    requires s.procs[p].WantChain? ==> forall q :: q in d ==> s.procs[q].WantChain?
    ensures CanEnter(s, p, Granted(s.procs[p]))
  {
    hide Hash, Compatible, Granted, Waits, Busy;
    forall q: nat | q < |s.procs| && q != p
      ensures Compatible(Granted(s.procs[p]), s.procs[q])
    {
      if q in d {
        assert Compatible(s.procs[p], s.procs[q]);
        if s.procs[p].WantChain? {
          OuterFree(s.procs[p], s.procs[q]);
        } else {
          InnerFree(s.procs[p], s.procs[q]);
        }
      }
    }
  }

  /** No set of calls can deadlock: in every state of every run, of any calls in
      progress that wait for none but each other one can go on. */
  lemma NoDeadlock(n: nat, run: seq<State>, who: seq<nat>, k: nat, d: set<nat>) returns (q: nat, t: State)
    requires IsRun(n, run, who) && k < |run| && d != {} && Waiting(run[k], d)
    ensures q in d && Enabled(run[k]) && Next(run[k], q, t) && |t.procs| == |run[k].procs| && !t.procs[q].Dead?
  {
    hide IsRun, Inv, Busy, Next, Core, Waits, Granted, CanEnter, Compatible;
    RunInv(n, run, who, k);
    var s := run[k];
    InvParts(s);
    InvRest(s);
    PlacedCore(s);
    hide C.Placed, Excl;
    if x :| x in d && !Waits(s.procs[x]) {
      q := x;
      t := CanStep(s, q);
    } else {
      if x :| x in d && !s.procs[x].WantChain? {
        q := x;
      } else {
        q :| q in d;
      }
      SomeEnters(s, d, q);
      GrantedStep(s, q);
      t := Go(s, q, Granted(s.procs[q]));
    }
  }

  /** So as long as a call is in progress, one of those in progress can go on. */
  lemma SomeCallGoesOn(n: nat, run: seq<State>, who: seq<nat>, k: nat, p: nat) returns (q: nat, t: State)
    requires IsRun(n, run, who) && k < |run| && p < |run[k].procs| && Busy(run[k].procs[p])
    ensures q < |run[k].procs| && Busy(run[k].procs[q])
    ensures Enabled(run[k]) && Next(run[k], q, t) && |t.procs| == |run[k].procs| && !t.procs[q].Dead?
  {
    hide IsRun, Next, Enabled, Granted, Waits;
    var s := run[k];
    var d := set x: nat | x < |s.procs| && Busy(s.procs[x]);
    assert p in d;
    forall x, y: nat | x in d && Waits(s.procs[x]) && y < |s.procs| && y !in d
      ensures Compatible(Granted(s.procs[x]), s.procs[y])
    {
      hide Hash;
    }
    q, t := NoDeadlock(n, run, who, k, d);
  }
}
