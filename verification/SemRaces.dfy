/** Runs in which sem_close goes wrong. */
module SemRaces {
  import opened Values
  import opened SemSet
  import opened SemRuns

  const NONE: multiset<nat> := multiset{}
  const IDLE := Proc(Idle, NONE, NONE, 0, 0, 0)

  /** A process with one use of set 0, and one that holds the lock. */
  const USER := Proc(Idle, multiset{0}, NONE, 0, 1, 0)

  function Locking(pc: Pc): Proc {
    Proc(pc, NONE, NONE, 0, 0, -1)
  }

  /** Set 0 with [0] at 1 and these [1] and [2], once it has been created. */
  function Ready(v1: int, v2: int, a: Proc, b: Proc): State {
    State(Some(Set(0, 1, v1, v2, true)), 1, {0}, [a, b])
  }

  /** Process 0 creates a set. */
  function Creating(k: nat): State {
    if k == 0 then Init(2)
    else if k == 1 then State(None, 0, {}, [IDLE.(pc := CreateGet(1)), IDLE])
    else if k == 2 then State(Some(Set(0, 0, 0, 0, false)), 1, {}, [IDLE.(pc := CreateLock(0, 1)), IDLE])
    else if k == 3 then State(Some(Set(0, 0, 0, 1, false)), 1, {}, [Locking(CreateTest(0, 1)), IDLE])
    else if k == 4 then State(Some(Set(0, 0, 0, 1, false)), 1, {}, [Locking(CreateVal(0, 1)), IDLE])
    else if k == 5 then State(Some(Set(0, 1, 0, 1, false)), 1, {}, [Locking(CreateCount(0, 1)), IDLE])
    else if k == 6 then State(Some(Set(0, 1, BIGCOUNT, 1, true)), 1, {}, [Locking(CreateEnd(0, 1)), IDLE])
    else Ready(BIGCOUNT - 1, 0, USER, IDLE)
  }

  /** The other process opens the set between the test of [1] and the removal. */
  function Race(k: nat): State {
    if k <= 7 then Creating(k)
    else if k == 8 then Ready(BIGCOUNT - 1, 0, USER.(pc := CloseLock(0)), IDLE)
    else if k == 9 then Ready(BIGCOUNT, 1, Locking(CloseTest(0)), IDLE)
    else if k == 10 then Ready(BIGCOUNT, 1, Locking(CloseRm(0)), IDLE)
    else if k == 11 then Ready(BIGCOUNT, 1, Locking(CloseRm(0)), IDLE.(pc := OpenGet))
    else if k == 12 then Ready(BIGCOUNT, 1, Locking(CloseRm(0)), IDLE.(pc := OpenDec(0)))
    else if k == 13 then Ready(BIGCOUNT - 1, 1, Locking(CloseRm(0)), USER)
    else State(None, 1, {0}, [IDLE, USER.(adj1 := 0)])
  }

  /** The other process creates the set too, and closes it twice. */
  function Twice(k: nat): State {
    if k <= 7 then Creating(k)
    else if k == 8 then Ready(BIGCOUNT - 1, 0, USER, IDLE.(pc := CreateGet(1)))
    else if k == 9 then Ready(BIGCOUNT - 1, 0, USER, IDLE.(pc := CreateLock(0, 1)))
    else if k == 10 then Ready(BIGCOUNT - 1, 1, USER, Locking(CreateTest(0, 1)))
    else if k == 11 then Ready(BIGCOUNT - 1, 1, USER, Locking(CreateEnd(0, 1)))
    else if k == 12 then Ready(BIGCOUNT - 2, 0, USER, USER)
    else if k == 13 then Ready(BIGCOUNT - 2, 0, USER, USER.(pc := CloseLock(0)))
    else if k == 14 then Ready(BIGCOUNT - 1, 1, USER, Locking(CloseTest(0)))
    else if k == 15 then Ready(BIGCOUNT - 1, 1, USER, Locking(CloseUnlock(0)))
    else if k == 16 then Ready(BIGCOUNT - 1, 0, USER, IDLE)
    else if k == 17 then Ready(BIGCOUNT - 1, 0, USER, IDLE.(pc := CloseLock(0)))
    else if k == 18 then Ready(BIGCOUNT, 1, USER, Proc(CloseTest(0), NONE, multiset{0}, 0, -1, -1))
    else if k == 19 then Ready(BIGCOUNT, 1, USER, Proc(CloseRm(0), NONE, multiset{0}, 0, -1, -1))
    else State(None, 1, {0}, [USER.(adj1 := 0), Proc(Idle, NONE, multiset{0}, 0, 0, 0)])
  }

  /** The other process closes the set without having opened it, and the user ends
      before the test of [1]. */
  function Dump(k: nat): State {
    if k <= 7 then Creating(k)
    else if k == 8 then Ready(BIGCOUNT - 1, 0, USER, IDLE.(pc := CloseLock(0)))
    else if k == 9 then Ready(BIGCOUNT, 1, USER, Proc(CloseTest(0), NONE, multiset{0}, 0, -1, -1))
    else if k == 10 then Ready(BIGCOUNT + 1, 1, IDLE.(pc := Dead), Proc(CloseTest(0), NONE, multiset{0}, 0, -1, -1))
    else Ready(BIGCOUNT + 1, 1, IDLE.(pc := Dead), Proc(Dumped(0), NONE, multiset{0}, 0, -1, -1))
  }

  // ---- They are runs --------------------------------------------------------

  lemma CreatingStep(k: nat)
    requires k < 7
    ensures |Creating(k).procs| == 2 && Next(Creating(k), 0, Creating(k + 1))
  {
    if k < 4 {
      CreatingStarts(k);
    } else {
      CreatingEnds(k);
    }
  }

  lemma CreatingStarts(k: nat)
    requires k < 4
    ensures |Creating(k).procs| == 2 && Next(Creating(k), 0, Creating(k + 1))
  {
    var s, t := Creating(k), Creating(k + 1);
    if k == 0 {
      assert t.procs == Go(s, 0, CreateGet(1)).procs;
    } else if k == 1 {
      assert t == Get(s, 0, 1);
    } else if k == 2 {
      assert Lock(s, 0, CreateTest(0, 1), t);
    } else {
      assert t == Go(s, 0, CreateVal(0, 1));
    }
  }

  lemma CreatingEnds(k: nat)
    requires 4 <= k < 7
    ensures |Creating(k).procs| == 2 && Next(Creating(k), 0, Creating(k + 1))
  {
    var s, t := Creating(k), Creating(k + 1);
    if k == 4 {
      assert t.procs == SetVal0(s, 0, 0, 1).procs;
    } else if k == 5 {
      assert t.procs == SetVal1(s, 0, 0, 1).procs;
    } else {
      assert s.procs[0].held + multiset{0} == multiset{0} && s.known + {0} == {0};
      assert EndCreate(s, 0, 0, t);
    }
  }

  lemma RaceStep(k: nat)
    requires 7 <= k < 14
    ensures |Race(k).procs| == 2 && Next(Race(k), if 10 <= k < 13 then 1 else 0, Race(k + 1))
  {
    if k < 10 {
      RaceCloses(k);
    } else {
      RaceOpens(k);
    }
  }

  lemma RaceCloses(k: nat)
    requires 7 <= k < 10
    ensures |Race(k).procs| == 2 && Next(Race(k), 0, Race(k + 1))
  {
    var s, t := Race(k), Race(k + 1);
    if k == 7 {
      assert 0 in s.known && t == Go(s, 0, CloseLock(0));
    } else if k == 8 {
      assert s.procs[0].held - multiset{0} == NONE;
      assert BeginClose(s, 0, 0, t);
    } else {
      assert t == Go(s, 0, CloseRm(0));
    }
  }

  lemma RaceOpens(k: nat)
    requires 10 <= k < 14
    ensures |Race(k).procs| == 2 && Next(Race(k), if k < 13 then 1 else 0, Race(k + 1))
  {
    var s, t := Race(k), Race(k + 1);
    if k == 10 {
      assert t == Go(s, 1, OpenGet);
    } else if k == 11 {
      assert t == Go(s, 1, OpenDec(0));
    } else if k == 12 {
      assert s.procs[1].held + multiset{0} == multiset{0} && s.known + {0} == {0};
      assert Dec(s, 1, 0, t);
    } else {
      assert t.procs == Remove(s, 0).procs;
    }
  }

  lemma TwiceStep(k: nat)
    requires 7 <= k < 20
    ensures |Twice(k).procs| == 2 && Next(Twice(k), 1, Twice(k + 1))
  {
    if k < 12 {
      TwiceCreates(k);
    } else if k < 16 {
      TwiceCloses(k);
    } else if k < 18 {
      TwiceAgain(k);
    } else {
      TwiceRemoves(k);
    }
  }

  lemma TwiceCreates(k: nat)
    requires 7 <= k < 12
    ensures |Twice(k).procs| == 2 && Next(Twice(k), 1, Twice(k + 1))
  {
    var s, t := Twice(k), Twice(k + 1);
    if k == 7 {
      assert t == Go(s, 1, CreateGet(1));
    } else if k == 8 {
      assert t == Get(s, 1, 1);
    } else if k == 9 {
      assert Lock(s, 1, CreateTest(0, 1), t);
    } else if k == 10 {
      assert t == Go(s, 1, CreateEnd(0, 1));
    } else {
      assert s.procs[1].held + multiset{0} == multiset{0} && s.known + {0} == {0};
      assert EndCreate(s, 1, 0, t);
    }
  }

  lemma TwiceCloses(k: nat)
    requires 12 <= k < 16
    ensures |Twice(k).procs| == 2 && Next(Twice(k), 1, Twice(k + 1))
  {
    var s, t := Twice(k), Twice(k + 1);
    if k == 12 {
      assert 0 in s.known && t == Go(s, 1, CloseLock(0));
    } else if k == 13 {
      assert s.procs[1].held - multiset{0} == NONE;
      assert BeginClose(s, 1, 0, t);
    } else if k == 14 {
      assert t == Go(s, 1, CloseUnlock(0));
    } else {
      assert Unlock(s, 1, t);
    }
  }

  lemma TwiceAgain(k: nat)
    requires 16 <= k < 18
    ensures |Twice(k).procs| == 2 && Next(Twice(k), 1, Twice(k + 1))
  {
    var s, t := Twice(k), Twice(k + 1);
    if k == 16 {
      assert 0 in s.known && t == Go(s, 1, CloseLock(0));
    } else {
      assert s.procs[1].over + multiset{0} == multiset{0};
      assert BeginClose(s, 1, 0, t);
    }
  }

  lemma TwiceRemoves(k: nat)
    requires 18 <= k < 20
    ensures |Twice(k).procs| == 2 && Next(Twice(k), 1, Twice(k + 1))
  {
    var s, t := Twice(k), Twice(k + 1);
    if k == 18 {
      assert t == Go(s, 1, CloseRm(0));
    } else {
      assert t.procs == Remove(s, 1).procs;
    }
  }

  lemma DumpStep(k: nat)
    requires 7 <= k < 11
    ensures |Dump(k).procs| == 2 && Next(Dump(k), if k == 9 then 0 else 1, Dump(k + 1))
  {
    var s, t := Dump(k), Dump(k + 1);
    if k == 7 {
      assert 0 in s.known && t == Go(s, 1, CloseLock(0));
    } else if k == 8 {
      assert s.procs[1].over + multiset{0} == multiset{0};
      assert BeginClose(s, 1, 0, t);
    } else if k == 9 {
      assert t == Exit(s, 0);
    } else {
      assert t == Go(s, 1, Dumped(0));
    }
  }

  /** The counts of a state with two processes. */
  lemma TwoUsers(s: State)
    requires |s.procs| == 2
    ensures s.live.Some? ==>
      var id := s.live.value.id;
      && Users(s) == s.procs[0].held[id] + s.procs[1].held[id]
      && Overs(s) == s.procs[0].over[id] + s.procs[1].over[id]
  {
    if s.live.Some? {
      var id := s.live.value.id;
      TwoTotal(seq(2, i requires 0 <= i < 2 => s.procs[i].held), id);
      TwoTotal(seq(2, i requires 0 <= i < 2 => s.procs[i].over), id);
    }
  }

  lemma TwoTotal(ms: seq<multiset<nat>>, id: nat)
    requires |ms| == 2
    ensures Total(ms, id) == ms[0][id] + ms[1][id]
  {
    assert ms[..1] == [ms[0]] && ms[..1][..0] == [];
    assert Total(ms[..1], id) == ms[0][id];
  }

  // ---- What they show -------------------------------------------------------

  lemma FirstState()
    ensures Race(0) == Init(2) && Twice(0) == Init(2) && Dump(0) == Init(2)
  {
  }

  /** With sem_open, a set can go while a process uses it. */
  lemma OpenRaces() returns (run: seq<State>, who: seq<nat>)
    ensures IsRun(2, run, who) && |who| == 14 && |run[13].procs| == |run[14].procs| == 2
    ensures Users(run[13]) == 1 && run[13].procs[0].pc.CloseRm? && run[14].live.None? && 0 in run[14].procs[1].held
  {
    hide Race, Next, Users, Bounded, Init;
    run := seq(15, k requires 0 <= k < 15 => Race(k));
    who := seq(14, k requires 0 <= k < 14 => if 10 <= k < 13 then 1 else 0);
    forall k | 0 <= k < 14
      ensures who[k] < |run[k].procs| && Next(run[k], who[k], run[k + 1])
    {
      RaceNext(k);
    }
    forall k | 0 <= k < 15
      ensures Bounded(run[k])
    {
      RaceBounded(k);
    }
    FirstState();
    RaceEnds();
  }

  lemma RaceNext(k: nat)
    requires k < 14
    ensures |Race(k).procs| == 2 && Next(Race(k), if 10 <= k < 13 then 1 else 0, Race(k + 1))
  {
    hide Next;
    if k < 7 {
      CreatingStep(k);
    } else {
      RaceStep(k);
    }
  }

  lemma RaceBounded(k: nat)
    ensures Bounded(Race(k))
  {
    assert |Race(k).procs| == 2;
    TwoUsers(Race(k));
    hide Users, Overs;
  }

  lemma RaceEnds()
    ensures |Race(13).procs| == |Race(14).procs| == 2 && Users(Race(13)) == 1
    ensures Race(13).procs[0].pc.CloseRm? && Race(14).live.None? && 0 in Race(14).procs[1].held
  {
    TwoUsers(Race(13));
  }

  /** Without sem_open, a process that closes twice takes the set from under another. */
  lemma CloseTwice() returns (run: seq<State>, who: seq<nat>)
    ensures IsRun(2, run, who) && |who| == 20 && Locked(run) && |run[19].procs| == |run[20].procs| == 2
    ensures Users(run[19]) == 1 && run[19].procs[1].pc.CloseRm? && run[20].live.None? && 0 in run[20].procs[0].held
  {
    hide Twice, Next, Users, Bounded, Init;
    run := seq(21, k requires 0 <= k < 21 => Twice(k));
    who := seq(20, k requires 0 <= k < 20 => if k < 7 then 0 else 1);
    forall k | 0 <= k < 20
      ensures who[k] < |run[k].procs| && Next(run[k], who[k], run[k + 1])
    {
      TwiceNext(k);
    }
    forall k | 0 <= k < 21
      ensures Bounded(run[k])
    {
      TwiceBounded(k);
    }
    forall k, p | 0 <= k < 21 && 0 <= p < |run[k].procs|
      ensures !run[k].procs[p].pc.OpenGet? && !run[k].procs[p].pc.OpenDec? && !run[k].procs[p].pc.Rm?
    {
      TwiceLocked(k, p);
    }
    FirstState();
    TwiceEnds();
  }

  lemma TwiceNext(k: nat)
    requires k < 20
    ensures |Twice(k).procs| == 2 && Next(Twice(k), if k < 7 then 0 else 1, Twice(k + 1))
  {
    hide Next;
    if k < 7 {
      CreatingStep(k);
    } else {
      TwiceStep(k);
    }
  }

  lemma TwiceBounded(k: nat)
    ensures Bounded(Twice(k))
  {
    assert |Twice(k).procs| == 2;
    TwoUsers(Twice(k));
    hide Users, Overs;
  }

  lemma TwiceLocked(k: nat, p: nat)
    requires p < |Twice(k).procs|
    ensures var pc := Twice(k).procs[p].pc; !pc.OpenGet? && !pc.OpenDec? && !pc.Rm?
  {
  }

  lemma TwiceEnds()
    ensures |Twice(19).procs| == |Twice(20).procs| == 2 && Users(Twice(19)) == 1
    ensures Twice(19).procs[1].pc.CloseRm? && Twice(20).live.None? && 0 in Twice(20).procs[0].held
  {
    TwoUsers(Twice(19));
  }

  /** A process that closes a set it has not opened can find [1] above BIGCOUNT. */
  lemma CloseDumps() returns (run: seq<State>, who: seq<nat>)
    ensures IsRun(2, run, who) && |who| == 11 && |run[11].procs| == 2 && run[11].procs[1].pc.Dumped?
  {
    hide Dump, Next, Bounded, Init;
    run := seq(12, k requires 0 <= k < 12 => Dump(k));
    who := seq(11, k requires 0 <= k < 11 => if k < 7 || k == 9 then 0 else 1);
    forall k | 0 <= k < 11
      ensures who[k] < |run[k].procs| && Next(run[k], who[k], run[k + 1])
    {
      DumpNext(k);
    }
    forall k | 0 <= k < 12
      ensures Bounded(run[k])
    {
      DumpBounded(k);
    }
    FirstState();
    DumpEnds();
  }

  lemma DumpNext(k: nat)
    requires k < 11
    ensures |Dump(k).procs| == 2 && Next(Dump(k), if k < 7 || k == 9 then 0 else 1, Dump(k + 1))
  {
    hide Next;
    if k < 7 {
      CreatingStep(k);
    } else {
      DumpStep(k);
    }
  }

  lemma DumpBounded(k: nat)
    ensures Bounded(Dump(k))
  {
    assert |Dump(k).procs| == 2;
    TwoUsers(Dump(k));
    hide Users, Overs;
  }

  lemma DumpEnds()
    ensures |Dump(11).procs| == 2 && Dump(11).procs[1].pc.Dumped?
  {
  }
}
