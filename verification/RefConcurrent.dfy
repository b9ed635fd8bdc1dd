/** What every interleaving of foo_alloc, foo_hold, foo_find and foo_rele
    guarantees. */
module RefConcurrent {
  import opened Values
  import opened RefTable
  import opened RefLocks
  import opened RefInv
  import opened RefMoves
  import opened RefRuns
  import opened RefRefine
  import C = Chains

  // ---- Each step is a step of the one-lock table ----------------------------

  /** What the call a thread is in has already done. */
  ghost function Done(s: Sys, pc: Pc): Option<Event> {
    match pc
    case AllocObj(j) => if j < |s.ids| then Some(Alloc(s.ids[j], j)) else None
    case AllocDrop(j) => if j < |s.ids| then Some(Alloc(s.ids[j], j)) else None
    case AllocDone(j) => if j < |s.ids| then Some(Alloc(s.ids[j], j)) else None
    case HoldDone(j) => Some(Hold(j))
    case FindDone(id, j) => Some(Find(id, Some(j)))
    case FindDrop(id, found) => Some(Find(id, found))
    case RelDone(j) => Some(Release(j))
    case RelDropObj(j) => Some(Release(j))
    case RelDropHash(j) => Some(Release(j))
    case CutDropHash(j) => Some(Release(j))
    case CutDropObj(j) => Some(Release(j))
    case CutFree(j) => Some(Release(j))
    case _ => None
  }

  /** The event happens in this step of the call, for the first time; the free of
      a last release comes later. Only a call that has reported returns. */
  ghost predicate Reports(s: Sys, t: nat, e: Event, u: Sys)
    requires t < |s.ths| == |u.ths|
  {
    var x, y := Done(s, s.ths[t].pc), Done(u, u.ths[t].pc);
    match e
    case Quiet => if u.ths[t].pc == Idle then x.Some? else y == x
    case Free(j) => x == Some(Release(j)) && u.ths[t].pc == Idle
    case _ => x == None && y == Some(e)
  }

  /** The step of t from s to u means e. */
  ghost predicate Means(s: Sys, t: nat, e: Event, u: Sys) {
    && Shaped(s) && Shaped(u) && t < |s.ths| == |u.ths|
    && Step(Abs(s), t, e, Abs(u)) && Reports(s, t, e, u)
  }

  lemma Sizes(s: Sys)
    requires Shaped(s)
    ensures |Abs(s).lists| == NHASH && |Abs(s).refs| == |s.ths|
  {
  }

  lemma QuietMeans(s: Sys, t: nat, pc: Pc)
    requires Shaped(s) && t < |s.ths| && Private(pc) == Private(s.ths[t].pc) && Doomed(pc) == Doomed(s.ths[t].pc)
    requires if pc == Idle then Done(s, s.ths[t].pc).Some? else Done(s, pc) == Done(s, s.ths[t].pc)
    ensures Means(s, t, Quiet, Go(s, t, pc))
  {
    QuietGo(s, t, pc);
    Sizes(s);
    hide Abs;
  }

  lemma MeansAlloc(s: Sys, t: nat, u: Sys)
    requires Inv(s) && Shaped(s) && t < |s.ths| && Allocating(s.ths[t].pc) && NextAlloc(s, t, u)
    ensures Means(s, t, EventOf(s, t), u)
  {
    hide Inv, Core, Excl, OffChain, Counted, Abs, CanEnter, Publish, SetNext, Means;
    InvParts(s, t);
    match s.ths[t].pc
    case AllocLock(j) => QuietMeans(s, t, AllocNext(j));
    case AllocNext(j) => MeansSetNext(s, t, j);
    case AllocHead(j) => MeansPublish(s, t, j);
    case AllocObj(j) => QuietMeans(s, t, AllocDrop(j));
    case AllocDrop(j) => QuietMeans(s, t, AllocDone(j));
    case AllocDone(j) => QuietMeans(s, t, Idle);
  }

  lemma MeansSetNext(s: Sys, t: nat, j: nat)
    requires Shaped(s) && t < |s.ths| && j < |s.ids| && s.ths[t].pc == AllocNext(j)
    ensures Means(s, t, Quiet, SetNext(s, t, j))
  {
    QuietSetNext(s, t, j);
    Sizes(s);
    hide Abs;
  }

  lemma Steps(a: Table, t: nat, e: Event, b: Table)
    requires t < |a.refs| && |a.lists| == NHASH
    ensures e.Alloc? && DoAlloc(a, t, e.id, e.j, b) ==> Step(a, t, e, b)
    ensures e.Hold? && DoHold(a, t, e.j, b) ==> Step(a, t, e, b)
    ensures e.Find? && DoFind(a, t, e.id, e.found, b) ==> Step(a, t, e, b)
    ensures e.Release? && (DoDrop(a, t, e.j, b) || DoRemove(a, t, e.j, b)) ==> Step(a, t, e, b)
    ensures e.Free? && DoFree(a, t, e.j, b) ==> Step(a, t, e, b)
  {
    hide DoAlloc, DoHold, DoFind, DoDrop, DoRemove, DoFree;
  }

  /** Where a step leaves its own thread. */
  lemma MeansBy(s: Sys, t: nat, e: Event, u: Sys, th: Thread)
    requires Shaped(s) && Shaped(u) && t < |s.ths| && u.ths == s.ths[t := th]
    requires Step(Abs(s), t, e, Abs(u)) && Done(s, s.ths[t].pc) == None && Done(u, th.pc) == Some(e)
    requires e != Quiet && !e.Free?
    ensures Means(s, t, e, u)
  {
    hide Shaped, Abs, Step, Done;
  }

  lemma MeansPublish(s: Sys, t: nat, j: nat)
    requires Inv(s) && Shaped(s) && t < |s.ths| && j < |s.ids| && s.ths[t].pc == AllocHead(j)
    ensures Means(s, t, Alloc(s.ids[j], j), Publish(s, t, j))
  {
    hide Abs, Inv, DoAlloc, Means, Core, Step;
    SeenPublish(s, t, j);
    Sizes(s);
    var u, e := Publish(s, t, j), Alloc(s.ids[j], j);
    Steps(Abs(s), t, e, Abs(u));
    MeansBy(s, t, e, u, s.ths[t].(pc := AllocObj(j)));
  }

  lemma MeansMiss(s: Sys, t: nat, id: int, a: nat)
    requires Core(s) && Shaped(s) && t < |s.ths| && PcOk(s, t, s.ths[t]) && s.ths[t].pc == FindWalk(id, a, 0)
    ensures Means(s, t, Find(id, None), Go(s, t, FindDrop(id, None)))
  {
    hide Abs, DoFind, Means, Core, PcOk, Step;
    SeenMiss(s, t, id, a);
    QuietGo(s, t, FindDrop(id, None));
    Sizes(s);
    var u, e := Go(s, t, FindDrop(id, None)), Find(id, None);
    Steps(Abs(s), t, e, Abs(u));
    MeansBy(s, t, e, u, u.ths[t]);
  }

  lemma MeansFound(s: Sys, t: nat, id: int, a: nat, j: nat)
    requires Core(s) && Shaped(s) && t < |s.ths| && PcOk(s, t, s.ths[t]) && s.ths[t].pc == FindInc(id, a, j)
    ensures j < |s.counts| && Means(s, t, Find(id, Some(j)), Gain(s, t, j, FindDone(id, j)))
  {
    hide Abs, DoFind, Means, Core, PcOk, Step;
    SeenFind(s, t, id, a, j);
    Sizes(s);
    var u, e := Gain(s, t, j, FindDone(id, j)), Find(id, Some(j));
    Steps(Abs(s), t, e, Abs(u));
    MeansBy(s, t, e, u, u.ths[t]);
  }

  lemma MeansFind(s: Sys, t: nat, u: Sys)
    requires Inv(s) && Shaped(s) && t < |s.ths| && Finding(s.ths[t].pc) && NextFind(s, t, u)
    ensures Means(s, t, EventOf(s, t), u)
  {
    hide Inv, Core, PcOk, Excl, OffChain, Counted, C.Good, CanEnter, Means;
    InvParts(s, t);
    var pc := s.ths[t].pc;
    if pc.FindWalk? && pc.cur == 0 {
      MeansMiss(s, t, pc.id, pc.a);
    } else if pc.FindInc? {
      MeansFound(s, t, pc.id, pc.a, pc.j);
    } else {
      QuietMeans(s, t, u.ths[t].pc);
    }
  }

  lemma MeansRemove(s: Sys, t: nat, j: nat, a: nat, prev: int)
    requires Inv(s) && Shaped(s) && t < |s.ths| && s.ths[t].pc == CutWrite(j, a, prev)
    requires j < |s.ids| && a < |s.ch.lists[Slot(s.ids[j])]| && 0 <= prev <= |s.ch.ptrs|
    ensures Means(s, t, Release(j), Cut(s, t, j, a, prev))
  {
    hide Inv, Abs, Means, DoRemove, DoDrop, Step;
    SeenCut(s, t, j, a, prev);
    Sizes(s);
    var u, e := Cut(s, t, j, a, prev), Release(j);
    Steps(Abs(s), t, e, Abs(u));
    MeansBy(s, t, e, u, u.ths[t]);
  }

  lemma MeansFree(s: Sys, t: nat, j: nat)
    requires Inv(s) && Shaped(s) && t < |s.ths| && s.ths[t].pc == CutFree(j) && j < |s.ch.own|
    ensures Means(s, t, Free(j), Dispose(s, t, j))
  {
    hide Inv, Abs, DoFree, Step;
    SeenFree(s, t, j);
    Sizes(s);
    Steps(Abs(s), t, Free(j), Abs(Dispose(s, t, j)));
  }

  lemma MeansCut(s: Sys, t: nat, u: Sys)
    requires Inv(s) && Shaped(s) && t < |s.ths| && Cutting(s.ths[t].pc) && NextCut(s, t, u)
    ensures Means(s, t, EventOf(s, t), u)
  {
    hide Inv, Means, Cut, Dispose, Slot;
    var pc := s.ths[t].pc;
    if pc.CutWrite? {
      MeansRemove(s, t, pc.j, pc.a, pc.prev);
    } else if pc.CutFree? {
      MeansFree(s, t, pc.j);
    } else {
      QuietMeans(s, t, u.ths[t].pc);
    }
  }

  lemma MeansIdle(s: Sys, t: nat, u: Sys)
    requires Inv(s) && Shaped(s) && t < |s.ths| && s.ths[t].pc == Idle && NextCount(s, t, u)
    ensures Means(s, t, Quiet, u)
  {
    hide Inv, Abs, NewObject, Means, Shaped;
    if id :| u == NewObject(s, t, id) {
      MeansNew(s, t, id);
    } else {
      QuietMeans(s, t, u.ths[t].pc);
    }
  }

  lemma MeansNew(s: Sys, t: nat, id: int)
    requires Inv(s) && Shaped(s) && t < |s.ths| && s.ths[t].pc == Idle
    ensures Means(s, t, Quiet, NewObject(s, t, id))
  {
    QuietNew(s, t, id);
    Sizes(s);
    hide Abs, Inv;
  }

  lemma MeansHold(s: Sys, t: nat, j: nat)
    requires Core(s) && Shaped(s) && t < |s.ths| && PcOk(s, t, s.ths[t]) && s.ths[t].pc == HoldInc(j)
    ensures j < |s.counts| && Means(s, t, Hold(j), Gain(s, t, j, HoldDone(j)))
  {
    hide Abs, DoHold, Means, Core, PcOk, Step;
    SeenHold(s, t, j);
    Sizes(s);
    var u, e := Gain(s, t, j, HoldDone(j)), Hold(j);
    Steps(Abs(s), t, e, Abs(u));
    MeansBy(s, t, e, u, u.ths[t]);
  }

  lemma MeansDrop(s: Sys, t: nat, j: nat, pc: Pc)
    requires Core(s) && Shaped(s) && t < |s.ths| && PcOk(s, t, s.ths[t])
    requires (s.ths[t].pc == RelDec(j) && pc == RelDone(j)) || (s.ths[t].pc == RelDecBoth(j) && pc == RelDropObj(j))
    ensures j < |s.counts| && Means(s, t, Release(j), Lose(s, t, j, pc))
  {
    hide Abs, DoDrop, DoRemove, Means, Core, PcOk, Step;
    SeenRelease(s, t, j, pc);
    Sizes(s);
    var u, e := Lose(s, t, j, pc), Release(j);
    Steps(Abs(s), t, e, Abs(u));
    MeansBy(s, t, e, u, u.ths[t]);
  }

  lemma MeansCount(s: Sys, t: nat, u: Sys)
    requires Inv(s) && Shaped(s) && t < |s.ths| && Counting(s.ths[t].pc) && NextCount(s, t, u)
    ensures Means(s, t, EventOf(s, t), u)
  {
    hide Inv, Core, PcOk, Excl, OffChain, Counted, C.Good, CanEnter, Means, NewObject;
    InvParts(s, t);
    var pc := s.ths[t].pc;
    if pc.Idle? {
      MeansIdle(s, t, u);
    } else if pc.HoldInc? {
      MeansHold(s, t, pc.j);
    } else if pc.RelDec? || pc.RelDecBoth? {
      MeansDrop(s, t, pc.j, u.ths[t].pc);
    } else {
      QuietMeans(s, t, u.ths[t].pc);
    }
  }

  /** Every step means one event of the one-lock table, and each call reports its
      event exactly once before it returns. */
  lemma StepMeans(s: Sys, t: nat, u: Sys)
    requires Inv(s) && Shaped(s) && t < |s.ths| && Next(s, t, u)
    ensures Means(s, t, EventOf(s, t), u)
  {
    hide Inv, Means, NextAlloc, NextFind, NextCut, NextCount;
    if Allocating(s.ths[t].pc) {
      MeansAlloc(s, t, u);
    } else if Finding(s.ths[t].pc) {
      MeansFind(s, t, u);
    } else if Cutting(s.ths[t].pc) {
      MeansCut(s, t, u);
    } else {
      MeansCount(s, t, u);
    }
  }

  // ---- Runs -----------------------------------------------------------------

  ghost function Init(n: nat): Sys {
    Sys(C.Chains(seq(NHASH, _ => 0), [], [], [], seq(NHASH, _ => [])), [], [], seq(n, _ => Thread(Idle, multiset{})))
  }

  ghost function EmptyTable(n: nat): Table {
    Table(seq(NHASH, _ => []), map[], map[], seq(n, _ => multiset{}), map[], {})
  }

  lemma {:induction false} NoRefs(ths: seq<Thread>)
    requires forall t :: 0 <= t < |ths| ==> ths[t].refs == multiset{}
    ensures All(ths) == multiset{}
  {
    if ths != [] {
      NoRefs(ths[..|ths| - 1]);
    }
  }

  lemma InitInv(n: nat)
    ensures Inv(Init(n)) && Shaped(Init(n)) && Abs(Init(n)) == EmptyTable(n)
  {
    var s := Init(n);
    C.EmptyGood(NHASH);
    hide C.Good;
    NoRefs(s.ths);
    assert Refs(s) == EmptyTable(n).refs;
  }

  /** Thread who[k] takes step k of the run. */
  ghost predicate IsRun(n: nat, run: seq<Sys>, who: seq<nat>) {
    && |run| == |who| + 1 && run[0] == Init(n)
    && forall k {:trigger who[k]} :: 0 <= k < |who| ==>
      Shaped(run[k]) && who[k] < |run[k].ths| && Next(run[k], who[k], run[k + 1])
  }

  lemma {:induction false} RunInv(n: nat, run: seq<Sys>, who: seq<nat>, k: nat)
    requires IsRun(n, run, who) && k < |run|
    ensures Inv(run[k]) && Shaped(run[k])
  {
    hide Inv, Next, Init, Shaped;
    if k == 0 {
      InitInv(n);
    } else {
      RunInv(n, run, who, k - 1);
      assert who[k - 1] < |run[k - 1].ths|;
      InvNext(run[k - 1], who[k - 1], run[k - 1 + 1]);
      InvShaped(run[k]);
    }
  }

  lemma InvShaped(s: Sys)
    requires Inv(s)
    ensures Shaped(s)
  {
  }

  /** Every run of the two-lock table is a run of the one-lock table, with the same
      find results and frees. */
  lemma RefinesOneLock(n: nat, run: seq<Sys>, who: seq<nat>)
    requires IsRun(n, run, who)
    ensures forall k :: 0 <= k < |run| ==> Shaped(run[k])
    ensures Abs(run[0]) == EmptyTable(n)
    ensures forall k {:trigger who[k]} :: 0 <= k < |who| ==>
      who[k] < |run[k].ths| && Means(run[k], who[k], EventOf(run[k], who[k]), run[k + 1])
  {
    hide Inv, Next, Init, Shaped, Means, Abs, EmptyTable, EventOf;
    InitInv(n);
    forall k | 0 <= k < |run|
      ensures Shaped(run[k])
    {
      RunInv(n, run, who, k);
    }
    forall k {:trigger who[k]} | 0 <= k < |who|
      ensures who[k] < |run[k].ths| && Means(run[k], who[k], EventOf(run[k], who[k]), run[k + 1])
    {
      RunInv(n, run, who, k);
      StepMeans(run[k], who[k], run[k + 1]);
    }
  }

  // ---- What a reference is good for -----------------------------------------

  /** In every state of every run, the count of an object on a chain is the number
      of references to it, and an object a thread has a reference to is on the
      chain of its id and not freed (or still that thread's own, on its way
      there). */
  lemma ReferencesKeepObjects(n: nat, run: seq<Sys>, who: seq<nat>, k: nat)
    requires IsRun(n, run, who) && k < |run|
    ensures var s := run[k];
      && Shaped(s)
      && (forall j :: 0 <= j < |s.ids| && s.ch.own[j] >= 0 ==> s.counts[j] == All(s.ths)[j] >= 1)
      && (forall t, j :: 0 <= t < |s.ths| && j in s.ths[t].refs && Private(s.ths[t].pc) != Some(j) ==>
            j < |s.ids| && s.ch.own[j] == Slot(s.ids[j]) && j in s.ch.lists[Slot(s.ids[j])])
  {
    hide IsRun, Inv, All, Private;
    RunInv(n, run, who, k);
    var s := run[k];
    forall j | 0 <= j < |s.ids| && s.ch.own[j] >= 0
      ensures s.counts[j] == All(s.ths)[j] >= 1
    {
      CountOf(s, j);
    }
    forall t, j | 0 <= t < |s.ths| && j in s.ths[t].refs && Private(s.ths[t].pc) != Some(j)
      ensures j < |s.ids| && s.ch.own[j] == Slot(s.ids[j]) && j in s.ch.lists[Slot(s.ids[j])]
    {
      Placement(s, t, j);
    }
  }

  lemma Placement(s: Sys, t: nat, j: nat)
    requires Inv(s) && Shaped(s) && t < |s.ths| && j in s.ths[t].refs && Private(s.ths[t].pc) != Some(j)
    ensures j < |s.ids| && s.ch.own[j] == Slot(s.ids[j]) && j in s.ch.lists[Slot(s.ids[j])]
  {
    ReferencedIsLinked(s, t, j);
    hide Excl, OffChain, Counted, PcsOk, C.Good;
    OnList(s, j);
  }

  lemma CountOf(s: Sys, j: nat)
    requires Inv(s) && Shaped(s) && Linked(s, j)
    ensures s.counts[j] == All(s.ths)[j] >= 1
  {
    hide Core, Excl, OffChain, PcsOk, C.Good;
    assert Alive(s, j);
  }

  /** The objects whose lock or fields the next step of a thread touches. */
  function Touched(pc: Pc): set<nat> {
    match pc
    case Idle => {}
    case FindLock(_) => {}
    case FindHead(_) => {}
    case FindWalk(_, _, cur) => if cur > 0 then {cur - 1} else {}
    case FindDrop(_, _) => {}
    case RelHash(_) => {}
    case RelDropHash(_) => {}
    case CutWalk(j, _, cur) => if cur > 0 then {j, cur - 1} else {j}
    case CutWrite(j, _, prev) => if prev > 0 then {j, prev - 1} else {j}
    case _ => {pc.j}
  }

  lemma TouchesLinked(s: Sys, t: nat, j: nat)
    requires Inv(s) && Shaped(s) && t < |s.ths| && j in Touched(s.ths[t].pc)
    ensures Linked(s, j) || Mine(s, t, j)
  {
    InvParts(s, t);
    var pc := s.ths[t].pc;
    if pc.FindWalk? {
      FollowChain(s, Slot(pc.id), pc.a);
    } else if pc.HoldLock? || pc.RelLock? || pc.RelObj? {
      ReferencedIsLinked(s, t, j);
    } else {
      hide Inv, Excl, OffChain, Counted;
      TouchesOnChain(s, t, j);
    }
  }

  lemma TouchesOnChain(s: Sys, t: nat, j: nat)
    requires Core(s) && t < |s.ths| && PcOk(s, t, s.ths[t]) && j in Touched(s.ths[t].pc)
    requires !s.ths[t].pc.FindWalk? && !s.ths[t].pc.HoldLock? && !s.ths[t].pc.RelLock? && !s.ths[t].pc.RelObj?
    ensures Linked(s, j) || Mine(s, t, j)
  {
    var pc := s.ths[t].pc;
    if pc.FindObj? || pc.FindInc? {
      FollowChain(s, Slot(pc.id), pc.a);
    } else if pc.CutWalk? && j != pc.j {
      FollowChain(s, Slot(s.ids[pc.j]), pc.a);
    } else if pc.CutWrite? && j != pc.j {
      FollowChain(s, Slot(s.ids[pc.j]), pc.a - 1);
    }
    hide Core;
  }

  /** No thread ever touches a freed object; when an object is destroyed, nobody
      but the thread that does it is at it or has a reference. */
  lemma FreedUntouched(n: nat, run: seq<Sys>, who: seq<nat>, k: nat, t: nat, j: nat)
    requires IsRun(n, run, who) && k < |run| && t < |run[k].ths|
    ensures Shaped(run[k])
    ensures j in Touched(run[k].ths[t].pc) ==> j !in Freed(run[k])
    ensures run[k].ths[t].pc == CutFree(j) ==>
      forall q :: 0 <= q < |run[k].ths| ==> j !in run[k].ths[q].refs && (q != t ==> j !in Touched(run[k].ths[q].pc))
  {
    hide IsRun, Inv, Touched;
    RunInv(n, run, who, k);
    var s := run[k];
    if j in Touched(s.ths[t].pc) {
      TouchesLinked(s, t, j);
    }
    if s.ths[t].pc == CutFree(j) {
      forall q | 0 <= q < |s.ths|
        ensures j !in s.ths[q].refs && (q != t ==> j !in Touched(s.ths[q].pc))
      {
        DoomedAlone(s, t, j, q);
      }
    }
  }

  lemma DoomedMine(s: Sys, t: nat, j: nat)
    requires Inv(s) && Shaped(s) && t < |s.ths| && Doomed(s.ths[t].pc) == Some(j)
    ensures Mine(s, t, j)
  {
    InvParts(s, t);
  }

  lemma DoomedAlone(s: Sys, t: nat, j: nat, q: nat)
    requires Inv(s) && Shaped(s) && t < |s.ths| && s.ths[t].pc == CutFree(j) && q < |s.ths|
    ensures j !in s.ths[q].refs && (q != t ==> j !in Touched(s.ths[q].pc))
  {
    hide Inv, Touched;
    DoomedMine(s, t, j);
    if j in s.ths[q].refs {
      ReferencedIsAlive(s, q, j);
    }
    if q != t && j in Touched(s.ths[q].pc) {
      TouchesLinked(s, q, j);
    }
  }

  lemma FreedGrows(s: Sys, t: nat, e: Event, u: Sys)
    requires Means(s, t, e, u)
    ensures Freed(s) <= Freed(u) && (e.Free? ==> e.j in Freed(u) && e.j !in Freed(s))
  {
    assert e.Free? ==> e.j in DoomedBy(s);
  }

  lemma {:induction false} StaysFreed(n: nat, run: seq<Sys>, who: seq<nat>, i: nat, k: nat)
    requires IsRun(n, run, who) && i <= k < |run|
    ensures Shaped(run[i]) && Shaped(run[k]) && Freed(run[i]) <= Freed(run[k])
    decreases k
  {
    hide Freed, Next, Init, Means, EventOf;
    RefinesOneLock(n, run, who);
    if i < k {
      StaysFreed(n, run, who, i, k - 1);
      assert who[k - 1] < |run[k - 1].ths|;
      FreedGrows(run[k - 1], who[k - 1], EventOf(run[k - 1], who[k - 1]), run[k - 1 + 1]);
    }
  }

  /** No object is freed twice. */
  lemma FreedOnce(n: nat, run: seq<Sys>, who: seq<nat>, i: nat, k: nat, j: nat)
    requires IsRun(n, run, who) && i < k < |who|
    ensures who[i] < |run[i].ths| && who[k] < |run[k].ths|
    ensures !(EventOf(run[i], who[i]) == Free(j) && EventOf(run[k], who[k]) == Free(j))
  {
    hide Freed, Next, Init, Means, EventOf;
    RefinesOneLock(n, run, who);
    assert who[i] < |run[i].ths| && who[k] < |run[k].ths|;
    FreedGrows(run[i], who[i], EventOf(run[i], who[i]), run[i + 1]);
    FreedGrows(run[k], who[k], EventOf(run[k], who[k]), run[k + 1]);
    StaysFreed(n, run, who, i + 1, k);
  }

  /** An object that no thread refers to has been freed, or one thread, and no other,
      is about to free it: the last release frees, and one thread does it. */
  lemma LastReleaseFrees(n: nat, run: seq<Sys>, who: seq<nat>, k: nat, j: nat)
    requires IsRun(n, run, who) && k < |run| && j < |run[k].ids|
    requires forall t :: 0 <= t < |run[k].ths| ==> j !in run[k].ths[t].refs
    ensures Shaped(run[k])
    ensures j in Freed(run[k]) <==> !exists t :: 0 <= t < |run[k].ths| && Doomed(run[k].ths[t].pc) == Some(j)
    ensures var ths := run[k].ths; forall t, q :: 0 <= t < |ths| && 0 <= q < |ths| ==>
      Doomed(ths[t].pc) == Some(j) && Doomed(ths[q].pc) == Some(j) ==> t == q
  {
    hide IsRun, Inv, All;
    RunInv(n, run, who, k);
    var s := run[k];
    NoneRefers(s.ths, j);
    forall t | 0 <= t < |s.ths| && Doomed(s.ths[t].pc) == Some(j)
      ensures s.ch.own[j] == Tag(t)
    {
      DoomedMine(s, t, j);
    }
    if j !in Freed(s) {
      Unreferenced(s, j);
    }
  }

  lemma {:induction false} NoneRefers(ths: seq<Thread>, j: nat)
    requires forall t :: 0 <= t < |ths| ==> j !in ths[t].refs
    ensures j !in All(ths)
  {
    if ths != [] {
      NoneRefers(ths[..|ths| - 1], j);
    }
  }

  lemma Unreferenced(s: Sys, j: nat)
    requires Inv(s) && Shaped(s) && j < |s.ids| && j !in All(s.ths) && s.ch.own[j] != FREED
    ensures exists t :: 0 <= t < |s.ths| && Doomed(s.ths[t].pc) == Some(j)
  {
    hide Excl, PcsOk, C.Good, All;
    assert !Alive(s, j);
    assert Doomed(s.ths[-2 - s.ch.own[j]].pc) == Some(j);
  }

  /** A thread that is about to free goes straight on to it, and waits for nobody. */
  lemma DoomedGoesOn(n: nat, run: seq<Sys>, who: seq<nat>, k: nat, t: nat, j: nat)
    requires IsRun(n, run, who) && k < |run| && t < |run[k].ths| && Doomed(run[k].ths[t].pc) == Some(j)
    ensures Shaped(run[k]) && CanStep(run[k], t)
    ensures k < |who| ==> t < |run[k + 1].ths|
    ensures k < |who| && !(who[k] == t && run[k].ths[t].pc.CutFree?) ==> Doomed(run[k + 1].ths[t].pc) == Some(j)
    ensures k < |who| && who[k] == t && run[k].ths[t].pc.CutFree? ==>
      EventOf(run[k], t) == Free(j) && j in Freed(run[k + 1])
  {
    hide Inv, Next, Init, CanStep, Means, Freed;
    RunInv(n, run, who, k);
    Unblocked(run[k], t);
    if k < |who| {
      RefinesOneLock(n, run, who);
      assert who[k] < |run[k].ths|;
      FreedGrows(run[k], who[k], EventOf(run[k], who[k]), run[k + 1]);
      DoomedStep(run[k], who[k], run[k + 1], t, j);
    }
  }

  lemma DoomedStep(s: Sys, p: nat, u: Sys, t: nat, j: nat)
    requires Shaped(s) && p < |s.ths| && Next(s, p, u) && t < |s.ths| && Doomed(s.ths[t].pc) == Some(j)
    ensures t < |u.ths| && (!(p == t && s.ths[t].pc.CutFree?) ==> Doomed(u.ths[t].pc) == Some(j))
  {
    if p != t {
      hide Next;
      ThreadsStay(s, p, u);
    } else {
      hide C.Good, NextAlloc, NextFind, NextCount, Shaped;
    }
  }

  lemma ThreadsStay(s: Sys, p: nat, u: Sys)
    requires Shaped(s) && p < |s.ths| && Next(s, p, u)
    ensures |u.ths| == |s.ths| && forall q :: 0 <= q < |s.ths| && q != p ==> u.ths[q] == s.ths[q]
  {
    hide CanEnter, Shaped, Slot, C.PtrTo, C.Drop, C.Extend, NextFind, NextCut;
    if Finding(s.ths[p].pc) {
      FindersStay(s, p, u);
    } else if Cutting(s.ths[p].pc) {
      CuttersStay(s, p, u);
    }
  }

  lemma FindersStay(s: Sys, p: nat, u: Sys)
    requires Shaped(s) && p < |s.ths| && Finding(s.ths[p].pc) && NextFind(s, p, u)
    ensures |u.ths| == |s.ths| && forall q :: 0 <= q < |s.ths| && q != p ==> u.ths[q] == s.ths[q]
  {
    hide CanEnter, Shaped, Slot;
  }

  lemma CuttersStay(s: Sys, p: nat, u: Sys)
    requires Shaped(s) && p < |s.ths| && Cutting(s.ths[p].pc) && NextCut(s, p, u)
    ensures |u.ths| == |s.ths| && forall q :: 0 <= q < |s.ths| && q != p ==> u.ths[q] == s.ths[q]
  {
    hide Shaped, Slot;
  }

  // ---- No deadlock ----------------------------------------------------------

  ghost predicate CanStep(s: Sys, t: nat)
    requires Shaped(s) && t < |s.ths|
  {
    exists u :: Next(s, t, u)
  }

  /** The program point past the lock a thread waits for. */
  function Wanted(pc: Pc): Option<Pc> {
    match pc
    case AllocLock(j) => Some(AllocNext(j))
    case AllocObj(j) => Some(AllocDrop(j))
    case HoldLock(j) => Some(HoldInc(j))
    case FindLock(id) => Some(FindHead(id))
    case FindObj(id, a, j) => Some(FindInc(id, a, j))
    case RelLock(j) => Some(RelTest(j))
    case RelHash(j) => Some(RelObj(j))
    case RelObj(j) => Some(RelRetest(j))
    case _ => None
  }

  lemma Unblocked(s: Sys, t: nat)
    requires Inv(s) && Shaped(s) && t < |s.ths|
    requires Wanted(s.ths[t].pc).Some? ==> CanEnter(s, t, Wanted(s.ths[t].pc).value)
    ensures CanStep(s, t)
  {
    hide Inv, Core, Excl, OffChain, Counted, C.Good, CanEnter, PcOk;
    InvParts(s, t);
    var pc := s.ths[t].pc;
    if Wanted(pc).Some? {
      assert Next(s, t, Go(s, t, Wanted(pc).value));
    } else {
      hide NextAlloc, NextFind, NextCut, NextCount;
      var u: Sys;
      if Allocating(pc) {
        u := UnblockedAlloc(s, t);
      } else if Finding(pc) {
        u := UnblockedFind(s, t);
      } else if Cutting(pc) {
        u := UnblockedCut(s, t);
      } else {
        u := UnblockedCount(s, t);
      }
      assert Next(s, t, u);
    }
  }

  lemma UnblockedAlloc(s: Sys, t: nat) returns (u: Sys)
    requires Core(s) && Shaped(s) && t < |s.ths| && PcOk(s, t, s.ths[t]) && Allocating(s.ths[t].pc)
    requires Wanted(s.ths[t].pc).None?
    ensures NextAlloc(s, t, u)
  {
    hide Core;
    match s.ths[t].pc
    case AllocNext(j) => u := SetNext(s, t, j);
    case AllocHead(j) => u := Publish(s, t, j);
    case AllocDrop(j) => u := Go(s, t, AllocDone(j));
    case AllocDone(j) => u := Go(s, t, Idle);
  }

  lemma UnblockedFind(s: Sys, t: nat) returns (u: Sys)
    requires Core(s) && Shaped(s) && t < |s.ths| && PcOk(s, t, s.ths[t]) && Finding(s.ths[t].pc)
    requires Wanted(s.ths[t].pc).None?
    ensures NextFind(s, t, u)
  {
    var pc := s.ths[t].pc;
    if pc.FindWalk? || pc.FindInc? {
      FollowChain(s, Slot(pc.id), pc.a);
    }
    hide Core, C.Good;
    match pc
    case FindHead(id) => u := Go(s, t, FindWalk(id, 0, s.ch.heads[Slot(id)]));
    case FindWalk(id, a, cur) =>
      u := Go(s, t, if cur == 0 then FindDrop(id, None)
                    else if s.ids[cur - 1] == id then FindObj(id, a, cur - 1)
                    else FindWalk(id, a + 1, s.ch.ptrs[cur - 1]));
    case FindInc(id, a, j) => u := Gain(s, t, j, FindDone(id, j));
    case FindDone(id, j) => u := Go(s, t, FindDrop(id, Some(j)));
    case FindDrop(id, found) => u := Go(s, t, Idle);
  }

  lemma UnblockedCut(s: Sys, t: nat) returns (u: Sys)
    requires Core(s) && Shaped(s) && t < |s.ths| && PcOk(s, t, s.ths[t]) && Cutting(s.ths[t].pc)
    ensures NextCut(s, t, u)
  {
    var pc := s.ths[t].pc;
    CutRange(s, t);
    hide Core, C.Good, PcOk;
    match pc
    case CutHead(j) =>
      u := Go(s, t, if s.ch.heads[Slot(s.ids[j])] == j + 1 then CutWrite(j, 0, 0)
                    else CutWalk(j, 0, s.ch.heads[Slot(s.ids[j])]));
    case CutWalk(j, a, cur) =>
      u := Go(s, t, if s.ch.ptrs[cur - 1] == j + 1 then CutWrite(j, a + 1, cur)
                    else CutWalk(j, a + 1, s.ch.ptrs[cur - 1]));
    case CutWrite(j, a, prev) => u := Cut(s, t, j, a, prev);
    case CutDropHash(j) => u := Go(s, t, CutDropObj(j));
    case CutDropObj(j) => u := Go(s, t, CutFree(j));
    case CutFree(j) => u := Dispose(s, t, j);
  }

  lemma CutRange(s: Sys, t: nat)
    requires Core(s) && Shaped(s) && t < |s.ths| && PcOk(s, t, s.ths[t]) && Cutting(s.ths[t].pc)
    ensures var pc := s.ths[t].pc;
      && pc.j < |s.ids| && (pc.CutWalk? ==> 0 < pc.cur <= |s.ids|)
      && (pc.CutWrite? ==> pc.a < |s.ch.lists[Slot(s.ids[pc.j])]| && 0 <= pc.prev <= |s.ch.ptrs|)
  {
    var pc := s.ths[t].pc;
    if pc.CutWalk? {
      FollowChain(s, Slot(s.ids[pc.j]), pc.a);
    } else if pc.CutWrite? && pc.a > 0 {
      FollowChain(s, Slot(s.ids[pc.j]), pc.a - 1);
    }
    hide Core;
  }

  lemma UnblockedCount(s: Sys, t: nat) returns (u: Sys)
    requires Core(s) && Shaped(s) && t < |s.ths| && PcOk(s, t, s.ths[t]) && Counting(s.ths[t].pc)
    requires Wanted(s.ths[t].pc).None?
    ensures NextCount(s, t, u)
  {
    hide Core;
    match s.ths[t].pc
    case Idle => u := Go(s, t, FindLock(0));
    case HoldInc(j) => u := Gain(s, t, j, HoldDone(j));
    case HoldDone(j) => u := Go(s, t, Idle);
    case RelTest(j) => u := Go(s, t, if s.counts[j] == 1 then RelBack(j) else RelDec(j));
    case RelDec(j) => u := Lose(s, t, j, RelDone(j));
    case RelDone(j) => u := Go(s, t, Idle);
    case RelBack(j) => u := Go(s, t, RelHash(j));
    case RelRetest(j) => u := Go(s, t, if s.counts[j] != 1 then RelDecBoth(j) else CutHead(j));
    case RelDecBoth(j) => u := Lose(s, t, j, RelDropObj(j));
    case RelDropObj(j) => u := Go(s, t, RelDropHash(j));
    case RelDropHash(j) => u := Go(s, t, Idle);
  }

  /** Whoever has an object lock waits for nothing, and whoever has the hash lock
      waits at most for an object lock. */
  lemma LockOrder(pc: Pc)
    ensures HasObj(pc).Some? ==> Wanted(pc).None?
    ensures HasHash(pc) && Wanted(pc).Some? ==> HasObj(Wanted(pc).value).Some?
    ensures Wanted(pc).Some? ==> !pc.Idle?
  {
  }

  /** d are calls in progress, and those of them that wait do not wait for others. */
  ghost predicate Waiting(s: Sys, d: set<nat>) {
    && (forall t :: t in d ==> t < |s.ths| && s.ths[t].pc != Idle)
    && (forall t, q: nat :: t in d && Wanted(s.ths[t].pc).Some? && q < |s.ths| && q !in d ==>
          Compatible(Wanted(s.ths[t].pc).value, s.ths[q].pc))
  }

  /** No set of calls can deadlock: in every state of every run, of any calls in
      progress that wait for none but each other one can go on. */
  lemma NoDeadlock(n: nat, run: seq<Sys>, who: seq<nat>, k: nat, d: set<nat>) returns (q: nat)
    requires IsRun(n, run, who) && k < |run| && d != {} && Waiting(run[k], d)
    ensures Shaped(run[k]) && q in d && CanStep(run[k], q)
  {
    hide IsRun, Inv, CanStep, CanEnter, Core, OffChain, Counted;
    RunInv(n, run, who, k);
    var s := run[k];
    var t :| t in d;
    InvParts(s, t);
    q := Runnable(s, d);
    Unblocked(s, q);
  }

  lemma Runnable(s: Sys, d: set<nat>) returns (q: nat)
    requires Excl(s) && d != {} && Waiting(s, d)
    ensures q in d && (Wanted(s.ths[q].pc).Some? ==> CanEnter(s, q, Wanted(s.ths[q].pc).value))
  {
    hide Wanted, Excl, HasObj, HasHash, Compatible, CanEnter;
    if x :| x in d && Wanted(s.ths[x].pc).None? {
      q := x;
    } else {
      if x :| x in d && HasHash(s.ths[x].pc) {
        q := x;
      } else {
        q :| q in d;
      }
      WaitsAlone(s, d, q);
    }
  }

  /** Threads that wait have no object lock, so they wait only for the hash lock of
      one of them. */
  lemma WaitsAlone(s: Sys, d: set<nat>, t: nat)
    requires Excl(s) && Waiting(s, d) && t in d && forall x :: x in d ==> Wanted(s.ths[x].pc).Some?
    requires HasHash(s.ths[t].pc) || forall x :: x in d ==> !HasHash(s.ths[x].pc)
    ensures CanEnter(s, t, Wanted(s.ths[t].pc).value)
  {
    hide Wanted, HasObj, HasHash;
    forall x: nat | x < |s.ths| && x != t
      ensures Compatible(Wanted(s.ths[t].pc).value, s.ths[x].pc)
    {
      if x in d {
        assert Compatible(s.ths[t].pc, s.ths[x].pc);
        LockOrder(s.ths[t].pc);
        LockOrder(s.ths[x].pc);
      }
    }
  }

  /** So while a call is in progress, some call in progress can go on. */
  lemma SomeCallGoesOn(n: nat, run: seq<Sys>, who: seq<nat>, k: nat, t: nat) returns (q: nat)
    requires IsRun(n, run, who) && k < |run| && t < |run[k].ths| && run[k].ths[t].pc != Idle
    ensures Shaped(run[k]) && q < |run[k].ths| && run[k].ths[q].pc != Idle && CanStep(run[k], q)
  {
    hide IsRun, CanStep, Wanted;
    var s := run[k];
    var d := set x: nat | x < |s.ths| && s.ths[x].pc != Idle;
    assert t in d;
    q := NoDeadlock(n, run, who, k, d);
  }
}
