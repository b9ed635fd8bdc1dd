/** In every run each call of the two-lock table reports its event exactly once, between
    the step that starts it and the step that returns from it. */
module RefCalls {
  import opened Values
  import opened RefTable
  import opened RefLocks
  import opened RefInv
  import opened RefMoves
  import opened RefRefine
  import opened RefConcurrent
  import C = Chains

  // ---- What a call is -------------------------------------------------------

  datatype Call = Allocs(j: nat) | Holds(j: nat) | Finds(id: int) | Releases(j: nat)

  /** The call a thread is in, and its argument. */
  function CallOf(pc: Pc): Option<Call> {
    if pc.Idle? then None
    else if Allocating(pc) then Some(Allocs(pc.j))
    else if Finding(pc) then Some(Finds(pc.id))
    else if pc.HoldLock? || pc.HoldInc? || pc.HoldDone? then Some(Holds(pc.j))
    else Some(Releases(pc.j))
  }

  /** The event is one of this call. */
  predicate EventFor(c: Call, e: Event) {
    match c
    case Allocs(j) => e.Alloc? && e.j == j
    case Holds(j) => e == Hold(j)
    case Finds(id) => e.Find? && e.id == id
    case Releases(j) => e == Release(j)
  }

  lemma DoneIsOwn(s: Sys, pc: Pc)
    requires Done(s, pc).Some?
    ensures CallOf(pc).Some? && EventFor(CallOf(pc).value, Done(s, pc).value)
  {
  }

  /** A call stays what it is until it returns. */
  lemma CallStays(s: Sys, t: nat, u: Sys)
    requires Shaped(s) && t < |s.ths| == |u.ths| && Next(s, t, u) && !s.ths[t].pc.Idle? && !u.ths[t].pc.Idle?
    ensures CallOf(u.ths[t].pc) == CallOf(s.ths[t].pc)
  {
    hide Shaped, CanEnter, Slot, NextAlloc, NextFind, NextCut, NextCount;
    var pc := s.ths[t].pc;
    if Allocating(pc) {
      AllocStays(s, t, u);
    } else if Finding(pc) {
      FindStays(s, t, u);
    } else if Cutting(pc) {
      CutStays(s, t, u);
    } else {
      CountStays(s, t, u);
    }
  }

  lemma AllocStays(s: Sys, t: nat, u: Sys)
    requires Shaped(s) && t < |s.ths| == |u.ths| && Allocating(s.ths[t].pc) && NextAlloc(s, t, u) && !u.ths[t].pc.Idle?
    ensures CallOf(u.ths[t].pc) == CallOf(s.ths[t].pc)
  {
    hide Shaped, CanEnter, Slot;
  }

  lemma FindStays(s: Sys, t: nat, u: Sys)
    requires Shaped(s) && t < |s.ths| == |u.ths| && Finding(s.ths[t].pc) && NextFind(s, t, u) && !u.ths[t].pc.Idle?
    ensures CallOf(u.ths[t].pc) == CallOf(s.ths[t].pc)
  {
    hide Shaped, CanEnter, Slot;
  }

  lemma CutStays(s: Sys, t: nat, u: Sys)
    requires Shaped(s) && t < |s.ths| == |u.ths| && Cutting(s.ths[t].pc) && NextCut(s, t, u) && !u.ths[t].pc.Idle?
    ensures CallOf(u.ths[t].pc) == CallOf(s.ths[t].pc)
  {
    hide Shaped, Slot;
  }

  predicate Counts(pc: Pc) {
    !pc.Idle? && !Allocating(pc) && !Finding(pc) && !Cutting(pc)
  }

  lemma CountStays(s: Sys, t: nat, u: Sys)
    requires Shaped(s) && t < |s.ths| == |u.ths| && Counts(s.ths[t].pc) && NextCount(s, t, u) && !u.ths[t].pc.Idle?
    ensures CallOf(u.ths[t].pc) == CallOf(s.ths[t].pc)
  {
    hide NextCount, Shaped, CallOf;
    var pc := s.ths[t].pc;
    if pc.HoldLock? || pc.HoldInc? || pc.HoldDone? {
      HoldStays(s, t, u);
    } else if pc.RelLock? || pc.RelTest? || pc.RelDec? || pc.RelDone? {
      ReleaseStays(s, t, u);
    } else if pc.RelBack? || pc.RelHash? || pc.RelObj? {
      LastStays(s, t, u);
    } else {
      BothStays(s, t, u);
    }
  }

  lemma HoldStays(s: Sys, t: nat, u: Sys)
    requires Shaped(s) && t < |s.ths| == |u.ths| && Counts(s.ths[t].pc) && NextCount(s, t, u) && !u.ths[t].pc.Idle?
    requires s.ths[t].pc.HoldLock? || s.ths[t].pc.HoldInc? || s.ths[t].pc.HoldDone?
    ensures CallOf(u.ths[t].pc) == CallOf(s.ths[t].pc)
  {
    hide Shaped, CanEnter, NewObject;
  }

  lemma ReleaseStays(s: Sys, t: nat, u: Sys)
    requires Shaped(s) && t < |s.ths| == |u.ths| && Counts(s.ths[t].pc) && NextCount(s, t, u) && !u.ths[t].pc.Idle?
    requires s.ths[t].pc.RelLock? || s.ths[t].pc.RelTest? || s.ths[t].pc.RelDec? || s.ths[t].pc.RelDone?
    ensures CallOf(u.ths[t].pc) == CallOf(s.ths[t].pc)
  {
    hide Shaped, CanEnter, NewObject;
  }

  lemma LastStays(s: Sys, t: nat, u: Sys)
    requires Shaped(s) && t < |s.ths| == |u.ths| && Counts(s.ths[t].pc) && NextCount(s, t, u) && !u.ths[t].pc.Idle?
    requires var pc := s.ths[t].pc; pc.RelBack? || pc.RelHash? || pc.RelObj?
    ensures CallOf(u.ths[t].pc) == CallOf(s.ths[t].pc)
  {
    hide Shaped, CanEnter, NewObject;
  }

  lemma BothStays(s: Sys, t: nat, u: Sys)
    requires Shaped(s) && t < |s.ths| == |u.ths| && Counts(s.ths[t].pc) && NextCount(s, t, u) && !u.ths[t].pc.Idle?
    requires var pc := s.ths[t].pc; pc.RelRetest? || pc.RelDecBoth? || pc.RelDropObj? || pc.RelDropHash?
    ensures CallOf(u.ths[t].pc) == CallOf(s.ths[t].pc)
  {
    hide Shaped, CanEnter, NewObject;
  }

  /** What a thread has reported does not depend on the others. */
  lemma DoneStays(s: Sys, p: nat, u: Sys, t: nat)
    requires Inv(s) && Shaped(s) && p < |s.ths| && Next(s, p, u) && t < |s.ths| && t != p
    ensures |u.ths| == |s.ths| && u.ths[t] == s.ths[t] && Done(u, u.ths[t].pc) == Done(s, s.ths[t].pc)
  {
    hide Inv, Next, Core, PcOk, Excl, OffChain, Counted;
    ThreadsStay(s, p, u);
    IdsStay(s, p, u);
    InvParts(s, t);
    AllocatedInRange(s, t);
  }

  lemma AllocatedInRange(s: Sys, t: nat)
    requires Core(s) && t < |s.ths| && PcOk(s, t, s.ths[t])
    ensures var pc := s.ths[t].pc; pc.AllocObj? || pc.AllocDrop? || pc.AllocDone? ==> pc.j < |s.ids|
  {
    hide C.Good;
  }

  lemma IdsStay(s: Sys, p: nat, u: Sys)
    requires Shaped(s) && p < |s.ths| && Next(s, p, u)
    ensures s.ids <= u.ids
  {
    hide Shaped, CanEnter, Slot;
  }

  // ---- Runs -----------------------------------------------------------------

  predicate IdleIn(s: Sys, t: nat) { t < |s.ths| && s.ths[t].pc.Idle? }

  /** Step b starts a call of t, which is on until state k. */
  ghost predicate Calls(n: nat, run: seq<Sys>, who: seq<nat>, b: nat, k: nat, t: nat) {
    && IsRun(n, run, who) && b < k < |run| && who[b] == t
    && IdleIn(run[b], t) && forall j :: b < j <= k ==> !IdleIn(run[j], t)
  }

  /** Steps b to k - 1 of t mean nothing, but for step c. */
  ghost predicate QuietBut(run: seq<Sys>, who: seq<nat>, b: nat, k: nat, t: nat, c: int)
    requires |run| == |who| + 1 && k <= |who|
  {
    forall j {:trigger who[j]} :: b <= j < k && who[j] == t && j != c ==>
      t < |run[j].ths| && EventOf(run[j], t) == Quiet
  }

  /** How far a call has come in state k: it reported in step c, if it has. */
  ghost predicate Progressed(run: seq<Sys>, who: seq<nat>, b: nat, k: nat, t: nat, c: nat)
    requires |run| == |who| + 1 && k <= |who| && t < |run[k].ths|
  {
    match Done(run[k], run[k].ths[t].pc)
    case None => QuietBut(run, who, b, k, t, -1)
    case Some(e) =>
      && b < c < k && who[c] == t && t < |run[c].ths| && EventOf(run[c], t) == e
      && QuietBut(run, who, b, k, t, c)
  }

  lemma ProgressOwn(run: seq<Sys>, who: seq<nat>, b: nat, k: nat, t: nat, c: nat) returns (d: nat)
    requires |run| == |who| + 1 && b < k < |who| && who[k] == t && t < |run[k].ths| == |run[k + 1].ths|
    requires Progressed(run, who, b, k, t, c) && Reports(run[k], t, EventOf(run[k], t), run[k + 1])
    requires !run[k + 1].ths[t].pc.Idle?
    ensures Progressed(run, who, b, k + 1, t, d)
  {
    hide Done, EventOf;
    d := if EventOf(run[k], t) == Quiet then c else k;
  }

  lemma ProgressOther(run: seq<Sys>, who: seq<nat>, b: nat, k: nat, t: nat, c: nat)
    requires |run| == |who| + 1 && b < k < |who| && who[k] != t && t < |run[k].ths| == |run[k + 1].ths|
    requires Progressed(run, who, b, k, t, c)
    requires Done(run[k + 1], run[k + 1].ths[t].pc) == Done(run[k], run[k].ths[t].pc)
    ensures Progressed(run, who, b, k + 1, t, c)
  {
    hide Done, EventOf;
  }

  lemma {:induction false} SameThreads(n: nat, run: seq<Sys>, who: seq<nat>, k: nat)
    requires IsRun(n, run, who) && k < |run|
    ensures |run[k].ths| == n
  {
    hide Next, Shaped;
    if k > 0 {
      SameThreads(n, run, who, k - 1);
      assert who[k - 1] < |run[k - 1].ths|;
      ThreadsStay(run[k - 1], who[k - 1], run[k - 1 + 1]);
    }
  }

  /** What is known around step k. */
  lemma StepOf(n: nat, run: seq<Sys>, who: seq<nat>, k: nat)
    requires IsRun(n, run, who) && k < |who|
    ensures |run[k].ths| == |run[k + 1].ths| == n && who[k] < n && Shaped(run[k]) && Inv(run[k])
    ensures Next(run[k], who[k], run[k + 1]) && Reports(run[k], who[k], EventOf(run[k], who[k]), run[k + 1])
  {
    hide Next, Inv, Init, Reports, Step, EventOf, Abs;
    SameThreads(n, run, who, k);
    SameThreads(n, run, who, k + 1);
    RunInv(n, run, who, k);
    assert who[k] < |run[k].ths|;
    StepMeans(run[k], who[k], run[k + 1]);
  }

  lemma {:induction false} Progress(n: nat, run: seq<Sys>, who: seq<nat>, b: nat, k: nat, t: nat) returns (c: nat)
    requires Calls(n, run, who, b, k, t) && t < n
    ensures |run[b + 1].ths| == |run[k].ths| == n && Progressed(run, who, b, k, t, c)
    ensures CallOf(run[k].ths[t].pc) == CallOf(run[b + 1].ths[t].pc)
    decreases k
  {
    hide Next, Inv, Init, Done, EventOf;
    StepOf(n, run, who, k - 1);
    StepOf(n, run, who, b);
    assert !IdleIn(run[k], t);
    if k - 1 == b {
      StartsQuiet(run[b], t, run[k]);
      c := 0;
    } else {
      var d := Progress(n, run, who, b, k - 1, t);
      assert !IdleIn(run[k - 1], t);
      hide Progressed, IsRun, Reports;
      if who[k - 1] == t {
        c := ProgressOwn(run, who, b, k - 1, t, d);
        CallStays(run[k - 1], t, run[k]);
      } else {
        DoneStays(run[k - 1], who[k - 1], run[k], t);
        ProgressOther(run, who, b, k - 1, t, d);
        c := d;
      }
    }
  }

  lemma StartsQuiet(s: Sys, t: nat, u: Sys)
    requires t < |s.ths| == |u.ths| && s.ths[t].pc.Idle? && !u.ths[t].pc.Idle? && Reports(s, t, EventOf(s, t), u)
    ensures EventOf(s, t) == Quiet && Done(u, u.ths[t].pc) == None
  {
  }

  /** Between the step b that starts a call of t and the step e that returns from it,
      exactly one step of t reports an event, and it is one of this call; the others
      mean nothing, but that the step that returns from a last release frees. */
  lemma ReportsOnce(n: nat, run: seq<Sys>, who: seq<nat>, b: nat, e: nat, t: nat) returns (c: nat)
    requires Calls(n, run, who, b, e, t) && e < |who| && who[e] == t && IdleIn(run[e + 1], t)
    ensures b < c < e && who[c] == t && t < |run[c].ths| && t < |run[b + 1].ths| && t < |run[e].ths|
    ensures CallOf(run[b + 1].ths[t].pc).Some? && EventFor(CallOf(run[b + 1].ths[t].pc).value, EventOf(run[c], t))
    ensures QuietBut(run, who, b, e, t, c)
    ensures var last := EventOf(run[e], t);
      last == Quiet || (last.Free? && EventOf(run[c], t) == Release(last.j))
  {
    StepOf(n, run, who, e);
    StepOf(n, run, who, b);
    assert !IdleIn(run[e], t);
    c := Progress(n, run, who, b, e, t);
    hide IsRun, Next, Inv, EventOf, Done;
    DoneBefore(run[e], t, run[e + 1]);
    DoneIsOwn(run[e], run[e].ths[t].pc);
  }

  lemma DoneBefore(s: Sys, t: nat, u: Sys)
    requires t < |s.ths| == |u.ths| && !s.ths[t].pc.Idle? && u.ths[t].pc.Idle? && Reports(s, t, EventOf(s, t), u)
    ensures Done(s, s.ths[t].pc).Some?
    ensures EventOf(s, t) == Quiet || (EventOf(s, t).Free? && Done(s, s.ths[t].pc) == Some(Release(EventOf(s, t).j)))
  {
    hide EventOf;
  }
}
