/** What every step of every process keeps. */
module SemInv {
  import opened SemSet

  // ---- Sums -----------------------------------------------------------------

  lemma {:induction false} SumUpdate(procs: seq<Proc>, p: nat, q: Proc)
    requires p < |procs|
    ensures Sum1(procs[p := q]) == Sum1(procs) - procs[p].adj1 + q.adj1
    ensures Sum2(procs[p := q]) == Sum2(procs) - procs[p].adj2 + q.adj2
  {
    var n := |procs| - 1;
    if p == n {
      assert procs[p := q][..n] == procs[..n];
    } else {
      SumUpdate(procs[..n], p, q);
      assert procs[p := q][..n] == procs[..n][p := q];
    }
  }

  lemma {:induction false} TotalUpdate(ms: seq<multiset<nat>>, p: nat, m: multiset<nat>, id: nat)
    requires p < |ms|
    ensures Total(ms[p := m], id) == Total(ms, id) - ms[p][id] + m[id] && 0 <= ms[p][id] <= Total(ms, id)
  {
    var n := |ms| - 1;
    TotalNat(ms[..n], id);
    if p == n {
      assert ms[p := m][..n] == ms[..n];
    } else {
      TotalUpdate(ms[..n], p, m, id);
      assert ms[p := m][..n] == ms[..n][p := m];
    }
  }

  lemma {:induction false} TotalNat(ms: seq<multiset<nat>>, id: nat)
    ensures Total(ms, id) >= 0
  {
    if ms != [] {
      TotalNat(ms[..|ms| - 1], id);
    }
  }

  lemma {:induction false} TotalZero(ms: seq<multiset<nat>>, id: nat)
    requires forall i :: 0 <= i < |ms| ==> id !in ms[i]
    ensures Total(ms, id) == 0
  {
    if ms != [] {
      TotalZero(ms[..|ms| - 1], id);
    }
  }

  lemma HeldUpdate(procs: seq<Proc>, p: nat, q: Proc, id: nat)
    requires p < |procs|
    ensures HeldBy(procs[p := q], id) == HeldBy(procs, id) - procs[p].held[id] + q.held[id]
    ensures OverBy(procs[p := q], id) == OverBy(procs, id) - procs[p].over[id] + q.over[id]
    ensures 0 <= procs[p].held[id] <= HeldBy(procs, id) && 0 <= procs[p].over[id] <= OverBy(procs, id)
  {
    var u := procs[p := q];
    var a := seq(|procs|, i requires 0 <= i < |procs| => procs[i].held);
    var b := seq(|procs|, i requires 0 <= i < |procs| => procs[i].over);
    TotalUpdate(a, p, q.held, id);
    TotalUpdate(b, p, q.over, id);
    assert a[p := q.held] == seq(|u|, i requires 0 <= i < |u| => u[i].held);
    assert b[p := q.over] == seq(|u|, i requires 0 <= i < |u| => u[i].over);
  }

  lemma HeldNat(procs: seq<Proc>, id: nat)
    ensures HeldBy(procs, id) >= 0 && OverBy(procs, id) >= 0
  {
    TotalNat(seq(|procs|, i requires 0 <= i < |procs| => procs[i].held), id);
    TotalNat(seq(|procs|, i requires 0 <= i < |procs| => procs[i].over), id);
  }

  lemma NoneHeld(procs: seq<Proc>, id: nat)
    ensures (forall i :: 0 <= i < |procs| ==> id !in procs[i].held) ==> HeldBy(procs, id) == 0
    ensures (forall i :: 0 <= i < |procs| ==> id !in procs[i].over) ==> OverBy(procs, id) == 0
  {
    if forall i :: 0 <= i < |procs| ==> id !in procs[i].held {
      TotalZero(seq(|procs|, i requires 0 <= i < |procs| => procs[i].held), id);
    }
    if forall i :: 0 <= i < |procs| ==> id !in procs[i].over {
      TotalZero(seq(|procs|, i requires 0 <= i < |procs| => procs[i].over), id);
    }
  }

  lemma HeldSame(a: seq<Proc>, b: seq<Proc>, id: nat)
    requires |a| == |b| && forall i :: 0 <= i < |a| ==> a[i].held == b[i].held && a[i].over == b[i].over
    ensures HeldBy(a, id) == HeldBy(b, id) && OverBy(a, id) == OverBy(b, id)
  {
    assert seq(|a|, i requires 0 <= i < |a| => a[i].held) == seq(|b|, i requires 0 <= i < |b| => b[i].held);
    assert seq(|a|, i requires 0 <= i < |a| => a[i].over) == seq(|b|, i requires 0 <= i < |b| => b[i].over);
  }

  /** Adjustments of [1] are uses less closes that were too many. */
  lemma {:induction false} SumIsHeld(procs: seq<Proc>, id: nat)
    requires forall i :: 0 <= i < |procs| ==> procs[i].adj1 == Net(procs[i], id)
    ensures Sum1(procs) == HeldBy(procs, id) - OverBy(procs, id)
  {
    hide HeldBy, OverBy;
    if procs == [] {
      NoneHeld(procs, id);
    } else {
      var n := |procs| - 1;
      SumIsHeld(procs[..n], id);
      HeldLast(procs, id);
    }
  }

  lemma HeldLast(procs: seq<Proc>, id: nat)
    requires procs != []
    ensures var n := |procs| - 1;
      && HeldBy(procs, id) == HeldBy(procs[..n], id) + procs[n].held[id]
      && OverBy(procs, id) == OverBy(procs[..n], id) + procs[n].over[id]
  {
    var n := |procs| - 1;
    var u := procs[..n];
    var a := seq(|procs|, i requires 0 <= i < |procs| => procs[i].held);
    var b := seq(|procs|, i requires 0 <= i < |procs| => procs[i].over);
    assert a[..n] == seq(|u|, i requires 0 <= i < |u| => u[i].held);
    assert b[..n] == seq(|u|, i requires 0 <= i < |u| => u[i].over);
  }

  // ---- The invariant --------------------------------------------------------

  /** Between taking and giving back the lock of [2]. */
  predicate Locks(pc: Pc) {
    || pc.CreateTest? || pc.CreateVal? || pc.CreateCount? || pc.CreateEnd?
    || pc.CloseTest? || pc.CloseRm? || pc.CloseUnlock? || pc.Dumped?
  }

  predicate Holds(s: State, p: nat)
    requires p < |s.procs|
  {
    var pc := s.procs[p].pc;
    Locks(pc) && IsLive(s, pc.id)
  }

  /** Ids of sets to come are not in use. */
  ghost predicate Fresh(s: State) {
    && (s.live.Some? ==> s.live.value.id < s.next)
    && (forall id :: id in s.known ==> id < s.next)
    && (forall p, id :: 0 <= p < |s.procs| && (id in s.procs[p].held || id in s.procs[p].over) ==> id in s.known)
    && (forall p :: 0 <= p < |s.procs| && Locks(s.procs[p].pc) ==> s.procs[p].pc.id < s.next)
  }

  /** A process's adjustments. */
  ghost predicate ProcOk(s: State, p: nat)
    requires p < |s.procs|
  {
    var q := s.procs[p];
    && (q.pc.CloseLock? ==> q.pc.id in s.known)
    && q.adj1 == (if s.live.Some? then Net(q, s.live.value.id) else 0)
    && q.adj2 == (if Holds(s, p) then -1 else 0)
  }

  ghost predicate Alone(s: State) {
    forall p, q :: 0 <= p < |s.procs| && 0 <= q < |s.procs| && p != q ==> !(Holds(s, p) && Holds(s, q))
  }

  /** The members of the present set. */
  ghost predicate SetOk(s: State) {
    s.live.Some? ==>
      var x := s.live.value;
      && 0 <= x.v1 == (if x.ready then BIGCOUNT - Users(s) + Overs(s) else 0)
      && (!x.ready ==> Users(s) == 0 && Overs(s) == 0 && x.id !in s.known)
      && x.v2 == (if exists p :: 0 <= p < |s.procs| && Holds(s, p) then 1 else 0)
  }

  /** What the holder of the lock has found out. */
  ghost predicate Knows(s: State, p: nat)
    requires p < |s.procs|
  {
    Holds(s, p) ==>
      var pc, ready := s.procs[p].pc, s.live.value.ready;
      && (pc.CreateVal? || pc.CreateCount? ==> !ready)
      && (pc.CreateEnd? || pc.CloseTest? || pc.CloseRm? || pc.CloseUnlock? || pc.Dumped? ==> ready)
  }

  ghost predicate Inv(s: State) {
    Fresh(s) && (forall p :: 0 <= p < |s.procs| ==> ProcOk(s, p) && Knows(s, p)) && Alone(s) && SetOk(s)
  }

  // ---- One process's step ---------------------------------------------------

  ghost predicate Others(s: State, p: nat, t: State) {
    |s.procs| == |t.procs| && forall i :: 0 <= i < |s.procs| && i != p ==>
      && t.procs[i].pc == s.procs[i].pc && t.procs[i].held == s.procs[i].held && t.procs[i].over == s.procs[i].over
      && t.procs[i].adj1 == s.procs[i].adj1 && t.procs[i].adj2 == s.procs[i].adj2
  }

  /** A step on the set both states have. */
  ghost predicate SameSet(s: State, p: nat, t: State)
    requires p < |s.procs|
  {
    && Others(s, p, t) && s.live.Some? && t.live.Some? && t.live.value.id == s.live.value.id && t.next == s.next
    && s.known <= t.known
  }

  lemma OthersHold(s: State, p: nat, t: State, i: nat)
    requires p < |s.procs| && SameSet(s, p, t) && i < |s.procs| && i != p
    ensures Holds(t, i) == Holds(s, i)
  {
  }

  lemma UsersChange(s: State, p: nat, t: State)
    requires p < |s.procs| && SameSet(s, p, t)
    ensures var id := s.live.value.id;
      && Users(t) == Users(s) - s.procs[p].held[id] + t.procs[p].held[id] && 0 <= s.procs[p].held[id] <= Users(s)
      && Overs(t) == Overs(s) - s.procs[p].over[id] + t.procs[p].over[id] && 0 <= s.procs[p].over[id] <= Overs(s)
  {
    var id := s.live.value.id;
    HeldUpdate(s.procs, p, t.procs[p], id);
    HeldSame(s.procs[p := t.procs[p]], t.procs, id);
  }

  /** What p must see to. */
  ghost predicate Done(s: State, p: nat, t: State)
    requires p < |s.procs| && SameSet(s, p, t)
  {
    var x, y, q := s.live.value, t.live.value, t.procs[p];
    && ProcOk(t, p) && Knows(t, p)
    && (forall id :: id in q.held || id in q.over ==> id in t.known) && (forall id :: id in t.known ==> id < t.next)
    && (Locks(q.pc) ==> q.pc.id < t.next)
    && (Holds(t, p) ==> Holds(s, p) || x.v2 == 0)
    && y.v2 == (if Holds(t, p) then 1 else if Holds(s, p) then 0 else x.v2)
    && (y.ready == x.ready || Holds(s, p))
    && 0 <= y.v1 == (if y.ready then BIGCOUNT - Users(t) + Overs(t) else 0)
    && (!y.ready ==> Users(t) == 0 && Overs(t) == 0 && y.id !in t.known)
  }

  lemma Preserve(s: State, p: nat, t: State)
    requires Inv(s) && p < |s.procs| && SameSet(s, p, t) && Done(s, p, t)
    ensures Inv(t)
  {
    hide HeldBy, OverBy;
    forall i | 0 <= i < |s.procs|
      ensures ProcOk(t, i) && Knows(t, i)
    {
      if i != p {
        assert ProcOk(s, i) && Knows(s, i);
        OthersHold(s, p, t, i);
      }
    }
    PreserveLock(s, p, t);
  }

  lemma PreserveLock(s: State, p: nat, t: State)
    requires Inv(s) && p < |s.procs| && SameSet(s, p, t) && Done(s, p, t)
    ensures Alone(t) && SetOk(t)
  {
    hide HeldBy, OverBy, ProcOk, Knows, Fresh;
    forall i | 0 <= i < |s.procs| && i != p
      ensures Holds(t, i) == Holds(s, i)
    {
      OthersHold(s, p, t, i);
    }
    assert Holds(s, p) ==> forall i :: 0 <= i < |s.procs| && i != p ==> !Holds(s, i);
    assert Holds(t, p) ==> forall i :: 0 <= i < |s.procs| && i != p ==> !Holds(s, i);
  }
}
