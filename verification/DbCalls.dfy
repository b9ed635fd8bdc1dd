/** In every run each call takes effect exactly once, between the step that starts it
    and the step that returns from it. */
module DbCalls {
  import opened Layout
  import opened DbInterleave
  import opened DbStore
  import opened DbShared
  import opened DbConcurrent
  import C = Chains

  // ---- One step -------------------------------------------------------------

  /** The call of this program point is in the log, at place n. */
  predicate Committed(pc: Pc) {
    pc.Ret? || ((pc.DelFree? || pc.DelIdx? || pc.DelHead? || pc.DelPrev? || pc.DelUnlock?) && pc.op.DoDelete?)
  }

  /** What a step of p does within its call. Before it commits it logs nothing; it
      commits by logging its own operation; then it logs nothing until it returns,
      which only a committed call does. A call that dies was not committed, and logs
      at most the binding its replacement has lost. */
  ghost predicate Once(s: State, p: nat, t: State)
    requires p < |s.procs| == |t.procs|
  {
    var x, y := s.procs[p], t.procs[p];
    if x.Idle? then y.WantChain? && t.log == s.log
    else if x.Dead? then false
    else if y.Idle? then x.Ret? && t.log == s.log
    else if y.Dead? then
      !Committed(x) && (t.log == s.log || t.log == s.log + [Entry(p, DoDelete(x.op.key), Code(0))])
    else
      && y.op == x.op
      && if Committed(x) then Committed(y) && y.n == x.n && t.log == s.log
         else if Committed(y) then
           y.n == |s.log| && |t.log| == |s.log| + 1 && t.log == s.log + [Entry(p, x.op, t.log[|s.log|].reply)]
         else t.log == s.log
  }

  ghost predicate OnlyOwn(s: State, p: nat, t: State) {
    |t.procs| == |s.procs| && forall q :: 0 <= q < |s.procs| && q != p ==> t.procs[q] == s.procs[q]
  }

  lemma OnceFind(s: State, p: nat, t: State)
    requires Enabled(s) && p < |s.procs| && !Deletes(s.procs[p]) && !Inserts(s.procs[p]) && !Appends(s.procs[p])
    requires NextFind(s, p, t)
    ensures OnlyOwn(s, p, t) && Once(s, p, t)
  {
    hide C.Placed, Hash, CanEnter, Data, Splice, OnHit, OnMiss;
    if s.procs[p].FindRec? {
      OnceLook(s, p, t);
    }
  }

  lemma OnceLook(s: State, p: nat, t: State)
    requires Enabled(s) && p < |s.procs| && s.procs[p].FindRec? && NextFind(s, p, t)
    ensures OnlyOwn(s, p, t) && Once(s, p, t)
  {
    hide C.Placed, Hash, CanEnter, Enabled;
  }

  lemma OnceDelete(s: State, p: nat, t: State)
    requires Enabled(s) && p < |s.procs| && Deletes(s.procs[p]) && NextDelete(s, p, t)
    ensures OnlyOwn(s, p, t) && Once(s, p, t)
  {
    hide C.Placed, Hash, CanEnter, Splice, C.Drop;
  }

  lemma OnceAppend(s: State, p: nat, t: State)
    requires Enabled(s) && p < |s.procs| && Appends(s.procs[p]) && NextAppend(s, p, t)
    ensures OnlyOwn(s, p, t) && Once(s, p, t)
  {
    hide C.Placed, Hash, CanEnter, Splice, C.Extend, Die, Link;
    if s.procs[p].LinkHead? || s.procs[p].IdxWant? {
      OnceEnds(s, p, t);
    }
  }

  lemma OnceEnds(s: State, p: nat, t: State)
    requires Enabled(s) && p < |s.procs| && (s.procs[p].IdxWant? || s.procs[p].LinkHead?) && NextAppend(s, p, t)
    ensures OnlyOwn(s, p, t) && Once(s, p, t)
  {
    hide C.Placed, Hash, CanEnter, Die, Enabled;
    if t == Die(s, p) {
      OnceDie(s, p);
    }
  }

  lemma OnceDie(s: State, p: nat)
    requires p < |s.procs| && (s.procs[p].IdxWant? || s.procs[p].LinkHead?)
    ensures OnlyOwn(s, p, Die(s, p)) && Once(s, p, Die(s, p))
  {
  }

  lemma OnceInsert(s: State, p: nat, t: State)
    requires Enabled(s) && p < |s.procs| && Inserts(s.procs[p]) && NextInsert(s, p, t)
    ensures OnlyOwn(s, p, t) && Once(s, p, t)
  {
    hide C.Placed, Hash, CanEnter, Splice;
  }

  lemma OnceNext(s: State, p: nat, t: State)
    requires Enabled(s) && p < |s.procs| && Next(s, p, t)
    ensures OnlyOwn(s, p, t) && Once(s, p, t)
  {
    hide Once, OnlyOwn, NextDelete, NextAppend, NextFind, NextInsert, Enabled;
    if Deletes(s.procs[p]) {
      OnceDelete(s, p, t);
    } else if Appends(s.procs[p]) {
      OnceAppend(s, p, t);
    } else if Inserts(s.procs[p]) {
      OnceInsert(s, p, t);
    } else {
      OnceFind(s, p, t);
    }
  }

  lemma StepsOnce(n: nat, run: seq<State>, who: seq<nat>, k: nat)
    requires IsRun(n, run, who) && k < |who|
    ensures who[k] < |run[k].procs| && OnlyOwn(run[k], who[k], run[k + 1]) && Once(run[k], who[k], run[k + 1])
  {
    hide Once, OnlyOwn, Next, Init, Enabled;
    assert who[k] < |run[k].procs|;
    OnceNext(run[k], who[k], run[k + 1]);
  }

  // ---- Runs -----------------------------------------------------------------

  lemma {:induction false} SameProcs(n: nat, run: seq<State>, who: seq<nat>, k: nat)
    requires IsRun(n, run, who) && k < |run|
    ensures |run[k].procs| == n
  {
    hide Next, Enabled, Once;
    if k > 0 {
      SameProcs(n, run, who, k - 1);
      StepsOnce(n, run, who, k - 1);
    }
  }

  lemma LogStep(s: State, p: nat, t: State)
    requires p < |s.procs| == |t.procs| && Once(s, p, t)
    ensures s.log <= t.log
  {
  }

  lemma {:induction false} LogGrows(n: nat, run: seq<State>, who: seq<nat>, i: nat, k: nat)
    requires IsRun(n, run, who) && i <= k < |run|
    ensures run[i].log <= run[k].log
    decreases k
  {
    hide Next, Enabled, Once, Init;
    if i < k {
      LogGrows(n, run, who, i, k - 1);
      StepsOnce(n, run, who, k - 1);
      LogStep(run[k - 1], who[k - 1], run[k]);
    }
  }

  /** Steps b to k - 1 of p log nothing, but for step c. */
  ghost predicate LogsOnlyAt(run: seq<State>, who: seq<nat>, b: nat, k: nat, p: nat, c: int)
    requires |run| == |who| + 1 && k <= |who|
  {
    forall j {:trigger who[j]} :: b <= j < k && who[j] == p && j != c ==> run[j + 1].log == run[j].log
  }

  /** Step b starts a call of p, which is on until state k. */
  ghost predicate Calls(n: nat, run: seq<State>, who: seq<nat>, b: nat, k: nat, p: nat) {
    && IsRun(n, run, who) && b < k < |run| && who[b] == p
    && IdleIn(run[b], p) && forall j :: b < j <= k ==> !IdleIn(run[j], p)
  }

  predicate IdleIn(s: State, p: nat) { p < |s.procs| && s.procs[p].Idle? }

  /** Step c of p, of which the call with this operation takes effect. */
  ghost predicate CommitsAt(run: seq<State>, who: seq<nat>, c: nat, p: nat, op: Op)
    requires c < |who| < |run|
  {
    && who[c] == p && |run[c + 1].log| == |run[c].log| + 1
    && run[c + 1].log == run[c].log + [Entry(p, op, run[c + 1].log[|run[c].log|].reply)]
  }

  /** How far a call has come in state k: step c is where it took effect, if it has. */
  ghost predicate Progressed(run: seq<State>, who: seq<nat>, b: nat, k: nat, p: nat, c: nat)
    requires |run| == |who| + 1 && k <= |who| && p < |run[k].procs|
  {
    var pc := run[k].procs[p];
    !pc.Idle? && !pc.Dead? &&
    if Committed(pc) then
      b < c < k && CommitsAt(run, who, c, p, pc.op) && pc.n == |run[c].log| && LogsOnlyAt(run, who, b, k, p, c)
    else LogsOnlyAt(run, who, b, k, p, -1)
  }

  /** A step of the call itself. */
  lemma ProgressOwn(run: seq<State>, who: seq<nat>, b: nat, k: nat, p: nat, c: nat) returns (d: nat)
    requires |run| == |who| + 1 && b < k < |who| && who[k] == p && p < |run[k].procs| == |run[k + 1].procs|
    requires Progressed(run, who, b, k, p, c) && Once(run[k], p, run[k + 1])
    requires !run[k + 1].procs[p].Idle? && !run[k + 1].procs[p].Dead?
    ensures Progressed(run, who, b, k + 1, p, d)
  {
    d := if Committed(run[k + 1].procs[p]) && !Committed(run[k].procs[p]) then k else c;
  }

  /** A step of another process. */
  lemma ProgressOther(run: seq<State>, who: seq<nat>, b: nat, k: nat, p: nat, c: nat)
    requires |run| == |who| + 1 && b < k < |who| && who[k] != p && p < |run[k].procs| == |run[k + 1].procs|
    requires Progressed(run, who, b, k, p, c) && run[k + 1].procs[p] == run[k].procs[p]
    ensures Progressed(run, who, b, k + 1, p, c)
  {
    hide CommitsAt;
  }

  lemma {:induction false} Progress(n: nat, run: seq<State>, who: seq<nat>, b: nat, k: nat, p: nat) returns (c: nat)
    requires Calls(n, run, who, b, k, p) && p < |run[k].procs| && !run[k].procs[p].Dead?
    ensures p < |run[b + 1].procs| && !run[b + 1].procs[p].Dead? && Progressed(run, who, b, k, p, c)
    ensures run[k].procs[p].op == run[b + 1].procs[p].op
    decreases k
  {
    hide Next, Enabled, Init, CommitsAt;
    SameProcs(n, run, who, k - 1);
    SameProcs(n, run, who, k);
    StepsOnce(n, run, who, k - 1);
    assert !IdleIn(run[k], p);
    if k - 1 == b {
      c := 0;
    } else {
      hide LogsOnlyAt;
      var d := Progress(n, run, who, b, k - 1, p);
      hide Progressed;
      c := ProgressNext(run, who, b, k - 1, p, d);
    }
  }

  lemma ProgressNext(run: seq<State>, who: seq<nat>, b: nat, k: nat, p: nat, c: nat) returns (d: nat)
    requires |run| == |who| + 1 && b < k < |who| && p < |run[k].procs| == |run[k + 1].procs| && who[k] < |run[k].procs|
    requires Progressed(run, who, b, k, p, c) && OnlyOwn(run[k], who[k], run[k + 1]) && Once(run[k], who[k], run[k + 1])
    requires !run[k + 1].procs[p].Idle? && !run[k + 1].procs[p].Dead?
    ensures Progressed(run, who, b, k + 1, p, d) && run[k + 1].procs[p].op == run[k].procs[p].op
  {
    hide CommitsAt, LogsOnlyAt;
    if who[k] == p {
      d := ProgressOwn(run, who, b, k, p, c);
    } else {
      hide Once;
      ProgressOther(run, who, b, k, p, c);
      d := c;
    }
  }

  /** Between the step b that starts a call of p and the step e that returns from it,
      exactly one step of p appends to the log: an entry of the call's operation and
      reply, at the place the call returns with. */
  lemma TakesEffectOnce(n: nat, run: seq<State>, who: seq<nat>, b: nat, e: nat, p: nat) returns (c: nat)
    requires Calls(n, run, who, b, e, p) && p < |run[e].procs| && run[e].procs[p].Ret?
    ensures var pc := run[e].procs[p];
      && b < c < e && who[c] == p && LogsOnlyAt(run, who, b, e, p, c)
      && p < |run[b + 1].procs| && run[b + 1].procs[p].WantChain? && run[b + 1].procs[p].op == pc.op
      && run[c + 1].log == run[c].log + [Entry(p, pc.op, pc.reply)] && pc.n == |run[c].log|
      && |run[b].log| <= pc.n < |run[e].log| && pc.reply == MapReply(Abs(run[c].log), pc.op)
  {
    c := Progress(n, run, who, b, e, p);
    StepsOnce(n, run, who, b);
    RepliesAreLinear(n, run, who, e, p);
    LogGrows(n, run, who, c + 1, e);
    LogGrows(n, run, who, b, c);
    hide IsRun, Abs, MapReply;
    var pc := run[e].procs[p];
    assert run[e].log[pc.n] == run[c + 1].log[pc.n];
    assert run[e].log[..pc.n] == run[c].log;
  }

  /** A call that returns before another starts takes effect before it. */
  lemma RealTimeOrder(n: nat, run: seq<State>, who: seq<nat>, e: nat, p: nat, b: nat, f: nat, q: nat)
    requires Calls(n, run, who, b, f, q) && q < |run[f].procs| && run[f].procs[q].Ret?
    requires e <= b && p < |run[e].procs| && run[e].procs[p].Ret?
    ensures run[e].procs[p].n < run[f].procs[q].n
  {
    hide Next, Enabled, Init, Once;
    var c := TakesEffectOnce(n, run, who, b, f, q);
    RepliesAreLinear(n, run, who, e, p);
    LogGrows(n, run, who, e, b);
    hide IsRun;
  }
}
